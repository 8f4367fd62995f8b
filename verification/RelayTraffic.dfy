/** What can travel on the channels, and what that makes the clients believe about themselves. */
module RelayTraffic {
  import opened Words
  import opened Lists
  import opened Packets
  import opened Hubs
  import opened GameMessages
  import opened ClientViews
  import opened Relay
  import opened RelayTokens

  /** The id at the end of a body: the subject of a notice, the sender of a game packet. */
  function Subject(p: Packet): Word {
    if 4 <= |p.body| then PopWord(p) else 0
  }

  /** The packets that connection `d` can be sent. */
  ghost predicate DownWire(d: Id, p: Packet) {
    || p == NewPacket(CLIENT_ACCEPTED)
    || p == IdPacket(CLIENT_ASSIGN_ID, d)
    || (IsNotice(p.id) && p == IdPacket(p.id, Subject(p)) && FIRST_ID <= Subject(p))
    || (IsGame(p.id) && Subject(p) != d && FIRST_ID <= Subject(p) && 0 < p.size && Agrees(p))
  }

  predicate IsNotice(t: Word) {
    t == GAME_ADD_CLIENT || t == GAME_REMOVE_CLIENT
  }

  /** `p` is a game packet as client `c` builds them. */
  ghost predicate SentBy(c: Id, p: Packet) {
    exists words :: Fits(words) && words != [] && p == Pack(p.id, words, c)
  }

  lemma SentByShape(c: Id, p: Packet)
    requires SentBy(c, p)
    ensures Subject(p) == c && Agrees(p) && 8 < p.size
  {
    var words :| Fits(words) && words != [] && p == Pack(p.id, words, c);
    PackShape(p.id, words, c);
  }

  /** The packets that client `c` sends; a game packet only once the server has enrolled it. */
  ghost predicate UpWire(c: Id, enrolled: bool, p: Packet) {
    p == NewPacket(CLIENT_REGISTER) || (IsGame(p.id) && SentBy(c, p) && enrolled)
  }

  /** An entry of the server's queue: a Register (with whatever stale body) or a client's game packet. */
  ghost predicate InWire(e: Entry, enrolled: bool) {
    e.packet.id == CLIENT_REGISTER || UpWire(e.from, enrolled, e.packet)
  }

  /** An assigned id, a notice or a game packet names an id whose Register has been processed. */
  ghost predicate Sourced(s: Sys, p: Packet)
    requires s.done <= |s.inLog|
  {
    IsNotice(p.id) || IsGame(p.id) || p.id == CLIENT_ASSIGN_ID ==> Enrolled(s, Subject(p)) >= 1
  }

  ghost predicate DownOk(s: Sys, d: Id)
    requires s.done <= |s.inLog| && d in s.hub.down
  {
    forall p :: p in s.hub.down[d] ==> DownWire(d, p) && Sourced(s, p)
  }

  ghost predicate UpOk(s: Sys, d: Id)
    requires s.done <= |s.inLog| && d in s.peers
  {
    forall p :: p in s.peers[d].up ==> UpWire(d, Enrolled(s, d) >= 1, p)
  }

  /** The client's state is the result of the packets it has handled. */
  ghost predicate ViewOk(s: Sys, d: Id)
    requires d in s.peers && d in s.hub.down
  {
    var peer := s.peers[d];
    peer.seen <= |s.hub.down[d]| && peer.view == HandleAll(NEWBORN, s.hub.down[d][..peer.seen])
  }

  ghost predicate TrafficOk(s: Sys, d: Id)
    requires Base(s) && d in s.peers
  {
    DownOk(s, d) && UpOk(s, d) && ViewOk(s, d)
  }

  ghost predicate QueueOk(s: Sys)
    requires s.done <= |s.inLog|
  {
    forall e :: e in s.inLog ==> InWire(e, Enrolled(s, e.from) >= 1)
  }

  ghost predicate Traffic(s: Sys) {
    && Tokens(s) && QueueOk(s)
    && forall d :: d in s.peers ==> TrafficOk(s, d)
  }

  // ---------- what a client that handles such packets believes ----------

  /** A client knows no id but its own, and stops waiting only after it has been told that id and the
      server has announced it. */
  ghost predicate Honest(d: Id, ps: seq<Packet>, v: View) {
    && (v.id == 0 || v.id == d)
    && (v.id == d <==> IdPacket(CLIENT_ASSIGN_ID, d) in ps)
    && (!v.waiting ==> v.id == d && IdPacket(GAME_ADD_CLIENT, d) in ps)
    && (v.stopped ==> IdPacket(GAME_REMOVE_CLIENT, d) in ps)
  }

  lemma MemberOfSnoc(ps: seq<Packet>, p: Packet, q: Packet)
    ensures q in ps + [p] <==> q in ps || q == p
  {
    var all := ps + [p];
    assert all[|ps|] == p;
    assert forall k :: 0 <= k < |ps| ==> all[k] == ps[k];
  }

  lemma HonestStep(d: Id, ps: seq<Packet>, v: View, p: Packet)
    requires FIRST_ID <= d && Honest(d, ps, v) && DownWire(d, p)
    ensures Honest(d, ps + [p], Handle(v, p))
  {
    MemberOfSnoc(ps, p, IdPacket(CLIENT_ASSIGN_ID, d));
    MemberOfSnoc(ps, p, IdPacket(GAME_ADD_CLIENT, d));
    MemberOfSnoc(ps, p, IdPacket(GAME_REMOVE_CLIENT, d));
    if p == IdPacket(CLIENT_ASSIGN_ID, d) {
      HandleAssigned(v, d);
    } else if IsNotice(p.id) {
      HandleNotice(v, p);
    }
    IdPacketCarries(CLIENT_ASSIGN_ID, d);
    IdPacketCarries(GAME_ADD_CLIENT, d);
    IdPacketCarries(GAME_REMOVE_CLIENT, d);
  }

  lemma HandleAssigned(v: View, d: Id)
    ensures Handle(v, IdPacket(CLIENT_ASSIGN_ID, d)) == v.(id := d)
  {
    IdPacketCarries(CLIENT_ASSIGN_ID, d);
  }

  lemma HandleNotice(v: View, p: Packet)
    requires IsNotice(p.id) && p == IdPacket(p.id, Subject(p))
    ensures Handle(v, p).id == v.id
    ensures !Handle(v, p).waiting ==> !v.waiting || (p.id == GAME_ADD_CLIENT && Subject(p) == v.id)
    ensures Handle(v, p).stopped ==> v.stopped || (p.id == GAME_REMOVE_CLIENT && Subject(p) == v.id)
  {
    IdPacketCarries(p.id, Subject(p));
  }

  lemma {:induction false} ViewHonest(d: Id, ps: seq<Packet>)
    requires FIRST_ID <= d && forall p :: p in ps ==> DownWire(d, p)
    ensures Honest(d, ps, HandleAll(NEWBORN, ps))
  {
    if ps != [] {
      var rest, p := ps[..|ps| - 1], ps[|ps| - 1];
      assert ps == rest + [p];
      ViewHonest(d, rest);
      HonestStep(d, rest, HandleAll(NEWBORN, rest), p);
    }
  }

  // ---------- what the server sends in one step ----------

  lemma IdPacketSubject(t: Word, x: Word)
    ensures Subject(IdPacket(t, x)) == x && IdPacket(t, x).id == t && Agrees(IdPacket(t, x))
  {
    IdPacketCarries(t, x);
  }

  /** Every packet of Delta(h, c, p, d) is of one of these kinds. */
  ghost predicate SentByReceive(h: Hub, c: Id, p: Packet, d: Id, q: Packet) {
    || (q.id == GAME_REMOVE_CLIENT && q == IdPacket(q.id, Subject(q)) && Subject(q) in h.garbage)
    || (p.id == CLIENT_REGISTER && d == c && q == IdPacket(CLIENT_ASSIGN_ID, c))
    || (p.id == CLIENT_REGISTER && q.id == GAME_ADD_CLIENT && q == IdPacket(q.id, Subject(q))
        && (Subject(q) == c || Subject(q) in h.clients))
    || (IsGame(p.id) && d != c && q == p)
  }

  lemma WelcomeMembers(h: Hub, c: Id, d: Id, q: Packet)
    requires q in Welcome(h, c, d)
    ensures || (d == c && q == IdPacket(CLIENT_ASSIGN_ID, c))
            || (q.id == GAME_ADD_CLIENT && q == IdPacket(q.id, Subject(q))
                && (Subject(q) == c || Subject(q) in h.clients))
  {
    IdPacketSubject(GAME_ADD_CLIENT, c);
    var living := Living(h.clients + [c], h.open);
    if q in IdPackets(GAME_ADD_CLIENT, living) {
      IdPacketsMember(GAME_ADD_CLIENT, living, q);
    }
  }

  lemma {:induction false} IdPacketsMember(t: Word, ids: seq<Id>, q: Packet)
    requires q in IdPackets(t, ids)
    ensures q.id == t && Subject(q) in ids && q == IdPacket(t, Subject(q))
  {
    var k :| 0 <= k < |ids| && IdPackets(t, ids)[k] == q;
    IdPacketSubject(t, ids[k]);
  }

  lemma DeltaMembers(h: Hub, c: Id, p: Packet, d: Id, q: Packet)
    requires q in Delta(h, c, p, d)
    ensures d in h.open && SentByReceive(h, c, p, d, q)
  {
    var notices := IdPackets(GAME_REMOVE_CLIENT, h.garbage);
    if q in notices {
      IdPacketsMember(GAME_REMOVE_CLIENT, h.garbage, q);
    } else if p.id == CLIENT_REGISTER {
      WelcomeMembers(h, c, d, q);
    }
  }

  // ---------- preservation ----------

  lemma EnrolledGrows(s: Sys, st: Step, x: Id)
    requires Tokens(s) && Enabled(s, st)
    ensures Next(s, st).done <= |Next(s, st).inLog|
    ensures Enrolled(Next(s, st), x) >= Enrolled(s, x)
    ensures st != Process ==> Enrolled(Next(s, st), x) == Enrolled(s, x)
  {
    var t := Next(s, st);
    if st == Process {
      EnrolledNext(s, x);
    } else {
      assert t.done == s.done && t.inLog[..s.done] == s.inLog[..s.done];
    }
  }

  lemma RelayedIsWire(s: Sys, d: Id)
    requires s.done < |s.inLog| && Enabled(s, Process) && Traffic(s) && d in s.peers
    requires var e := s.inLog[s.done]; IsGame(e.packet.id) && d != e.from
    ensures var q := s.inLog[s.done].packet; DownWire(d, q) && Enrolled(s, Subject(q)) >= 1
  {
    var e := s.inLog[s.done];
    assert e in s.inLog && InWire(e, Enrolled(s, e.from) >= 1);
    SentByShape(e.from, e.packet);
  }

  lemma SubjectIsEnrolled(s: Sys, x: Id)
    requires s.done < |s.inLog| && Enabled(s, Process) && Tokens(s)
    requires var e := s.inLog[s.done];
             (x == e.from && e.packet.id == CLIENT_REGISTER) || x in s.hub.garbage || x in s.hub.clients
    ensures x in s.peers && Enrolled(Next(s, Process), x) >= 1
  {
    EnrolledNext(s, x);
    if x in s.hub.garbage || x in s.hub.clients {
      assert TokenOk(s, x);
    }
  }

  /** Whom a notice of the server is about. */
  lemma NoticeNames(h: Hub, e: Entry, d: Id, q: Packet)
    requires SentByReceive(h, e.from, e.packet, d, q) && !(IsGame(e.packet.id) && d != e.from && q == e.packet)
    ensures var x := Subject(q);
            (x == e.from && e.packet.id == CLIENT_REGISTER) || x in h.garbage || x in h.clients
    ensures q == IdPacket(CLIENT_ASSIGN_ID, d) || (IsNotice(q.id) && q == IdPacket(q.id, Subject(q)))
  {
    IdPacketSubject(CLIENT_ASSIGN_ID, e.from);
  }

  lemma NoticeIsWire(s: Sys, d: Id, q: Packet)
    requires s.done < |s.inLog| && Enabled(s, Process) && Traffic(s) && d in s.peers
    requires var e := s.inLog[s.done];
             SentByReceive(s.hub, e.from, e.packet, d, q) && !(IsGame(e.packet.id) && d != e.from && q == e.packet)
    ensures DownWire(d, q) && Enrolled(Next(s, Process), Subject(q)) >= 1
  {
    NoticeNames(s.hub, s.inLog[s.done], d, q);
    SubjectIsEnrolled(s, Subject(q));
  }

  lemma SentByReceiveIsWire(s: Sys, d: Id, q: Packet)
    requires s.done < |s.inLog| && Enabled(s, Process) && Traffic(s) && d in s.peers
    requires var e := s.inLog[s.done]; SentByReceive(s.hub, e.from, e.packet, d, q)
    ensures Next(s, Process).done <= |Next(s, Process).inLog|
    ensures DownWire(d, q) && Sourced(Next(s, Process), q)
  {
    var e := s.inLog[s.done];
    if IsGame(e.packet.id) && d != e.from && q == e.packet {
      EnrolledGrows(s, Process, Subject(q));
      RelayedIsWire(s, d);
    } else {
      NoticeIsWire(s, d, q);
    }
  }

  lemma QueueKeeps(s: Sys, st: Step)
    requires Traffic(s) && Enabled(s, st) && !st.Take?
    ensures QueueOk(Next(s, st))
  {
    var t := Next(s, st);
    forall e | e in t.inLog
      ensures InWire(e, Enrolled(t, e.from) >= 1)
    {
      EnrolledGrows(s, st, e.from);
      assert e in s.inLog;
    }
  }

  lemma TakenIsWire(c: Id, enrolled: bool, p: Packet, q: Packet)
    requires UpWire(c, enrolled, p) && ReceivedAs(p, q)
    ensures InWire(Entry(c, q), enrolled)
    ensures IsGame(p.id) || IsGame(q.id) ==> q == p
  {
    if p.id != CLIENT_REGISTER {
      SentByShape(c, p);
    }
  }

  lemma QueueTakes(s: Sys, c: Id, q: Packet)
    requires Traffic(s) && Enabled(s, Take(c, q))
    ensures QueueOk(Next(s, Take(c, q)))
  {
    var t := Next(s, Take(c, q));
    var peer := s.peers[c];
    assert UpOk(s, c) && peer.up[peer.taken] in peer.up;
    TakenIsWire(c, Enrolled(s, c) >= 1, peer.up[peer.taken], q);
    forall e | e in t.inLog
      ensures InWire(e, Enrolled(t, e.from) >= 1)
    {
      EnrolledGrows(s, Take(c, q), e.from);
      assert e in s.inLog || e == Entry(c, q);
    }
  }

  lemma DownKept(s: Sys, st: Step, d: Id)
    requires Traffic(s) && Enabled(s, st) && d in s.peers && Base(Next(s, st))
    requires d in Next(s, st).hub.down && forall p :: p in Next(s, st).hub.down[d] ==> p in s.hub.down[d]
    ensures DownOk(Next(s, st), d)
  {
    var t := Next(s, st);
    assert DownOk(s, d);
    forall p | p in t.hub.down[d]
      ensures DownWire(d, p) && Sourced(t, p)
    {
      EnrolledGrows(s, st, Subject(p));
    }
  }

  lemma UpKept(s: Sys, st: Step, d: Id)
    requires Traffic(s) && Enabled(s, st) && d in s.peers
    requires d in Next(s, st).peers && Next(s, st).peers[d].up == s.peers[d].up
    ensures Next(s, st).done <= |Next(s, st).inLog| && UpOk(Next(s, st), d)
  {
    EnrolledGrows(s, st, d);
    assert UpOk(s, d);
  }

  lemma ViewKept(s: Sys, t: Sys, d: Id, more: seq<Packet>)
    requires d in s.peers && d in s.hub.down && ViewOk(s, d)
    requires d in t.peers && d in t.hub.down && t.hub.down[d] == s.hub.down[d] + more
    requires t.peers[d].seen == s.peers[d].seen && t.peers[d].view == s.peers[d].view
    ensures ViewOk(t, d)
  {
    assert (s.hub.down[d] + more)[..s.peers[d].seen] == s.hub.down[d][..s.peers[d].seen];
  }

  lemma DownValidated(s: Sys, d: Id)
    requires Traffic(s) && Enabled(s, Validate(d)) && Base(Next(s, Validate(d)))
    ensures DownOk(Next(s, Validate(d)), d)
  {
    var st := Validate(d);
    var t := Next(s, st);
    assert DownOk(s, d);
    assert t.hub.down[d] == s.hub.down[d] + [NewPacket(CLIENT_ACCEPTED)];
    forall p | p in t.hub.down[d]
      ensures DownWire(d, p) && Sourced(t, p)
    {
      EnrolledGrows(s, st, Subject(p));
      MemberOfSnoc(s.hub.down[d], NewPacket(CLIENT_ACCEPTED), p);
      assert p in s.hub.down[d] ==> DownWire(d, p) && Sourced(s, p);
    }
  }

  lemma TrafficValidate(s: Sys, d: Id)
    requires Traffic(s) && Enabled(s, Validate(d)) && Tokens(Next(s, Validate(d)))
    ensures TrafficOk(Next(s, Validate(d)), d)
  {
    var st := Validate(d);
    var t := Next(s, st);
    assert TrafficOk(s, d);
    UpKept(s, st, d);
    ViewKept(s, t, d, [NewPacket(CLIENT_ACCEPTED)]);
    DownValidated(s, d);
  }

  lemma RegisterIsUpWire(c: Id, enrolled: bool, p: Packet, q: Packet)
    requires q in Replies(p)
    ensures UpWire(c, enrolled, q)
  {
  }

  lemma HandleUp(s: Sys, d: Id)
    requires Traffic(s) && Enabled(s, HandleNext(d)) && Tokens(Next(s, HandleNext(d)))
    ensures UpOk(Next(s, HandleNext(d)), d)
  {
    var t := Next(s, HandleNext(d));
    EnrolledGrows(s, HandleNext(d), d);
    assert TrafficOk(s, d);
    var p := s.hub.down[d][s.peers[d].seen];
    assert t.peers[d].up == s.peers[d].up + Replies(p);
    forall q | q in t.peers[d].up
      ensures UpWire(d, Enrolled(t, d) >= 1, q)
    {
      if q in Replies(p) {
        RegisterIsUpWire(d, Enrolled(t, d) >= 1, p, q);
      }
    }
  }

  lemma HandleView(s: Sys, d: Id)
    requires Base(s) && d in s.peers && ViewOk(s, d) && Enabled(s, HandleNext(d))
    ensures ViewOk(Next(s, HandleNext(d)), d)
  {
    var down, seen := s.hub.down[d], s.peers[d].seen;
    HandleOne(NEWBORN, down[..seen], down[seen]);
    TakeOneMore(down, seen);
  }

  lemma TrafficHandle(s: Sys, d: Id)
    requires Traffic(s) && Enabled(s, HandleNext(d)) && Tokens(Next(s, HandleNext(d)))
    ensures TrafficOk(Next(s, HandleNext(d)), d)
  {
    assert TrafficOk(s, d);
    DownKept(s, HandleNext(d), d);
    HandleUp(s, d);
    HandleView(s, d);
  }

  /** A client that is no longer waiting has been announced, hence enrolled. */
  lemma SenderIsEnrolled(s: Sys, d: Id)
    requires Traffic(s) && d in s.peers && !s.peers[d].view.waiting
    ensures s.peers[d].view.id == d && Enrolled(s, d) >= 1
  {
    assert TrafficOk(s, d);
    var handled := s.hub.down[d][..s.peers[d].seen];
    assert forall p :: p in handled ==> p in s.hub.down[d];
    ViewHonest(d, handled);
    IdPacketSubject(GAME_ADD_CLIENT, d);
    assert Sourced(s, IdPacket(GAME_ADD_CLIENT, d));
  }

  lemma PackIsUpWire(d: Id, kind: Word, words: seq<Word>)
    requires IsGame(kind) && words != [] && Fits(words)
    ensures UpWire(d, true, Pack(kind, words, d))
  {
    PackShape(kind, words, d);
    assert SentBy(d, Pack(kind, words, d));
  }

  lemma UpSnoc(s: Sys, t: Sys, d: Id, p: Packet)
    requires s.done <= |s.inLog| && d in s.peers && UpOk(s, d) && t.done <= |t.inLog|
    requires d in t.peers && t.peers[d].up == s.peers[d].up + [p]
    requires Enrolled(s, d) >= 1 && Enrolled(t, d) >= 1 && UpWire(d, true, p)
    ensures UpOk(t, d)
  {
  }

  lemma SendUp(s: Sys, d: Id, kind: Word, words: seq<Word>)
    requires Traffic(s) && Enabled(s, SendGame(d, kind, words)) && Tokens(Next(s, SendGame(d, kind, words)))
    ensures UpOk(Next(s, SendGame(d, kind, words)), d)
  {
    SenderIsEnrolled(s, d);
    EnrolledGrows(s, SendGame(d, kind, words), d);
    PackIsUpWire(d, kind, words);
    assert TrafficOk(s, d);
    UpSnoc(s, Next(s, SendGame(d, kind, words)), d, Pack(kind, words, d));
  }

  lemma SendLeavesDown(s: Sys, t: Sys, d: Id, kind: Word, words: seq<Word>)
    requires Traffic(s) && Enabled(s, SendGame(d, kind, words)) && t == Next(s, SendGame(d, kind, words)) && Base(t)
    ensures DownOk(t, d) && ViewOk(t, d)
  {
    assert TrafficOk(s, d);
    assert t.hub == s.hub;
    DownKept(s, SendGame(d, kind, words), d);
    assert s.hub.down[d] + [] == s.hub.down[d];
    ViewKept(s, t, d, []);
  }

  lemma TrafficSend(s: Sys, d: Id, kind: Word, words: seq<Word>)
    requires Traffic(s) && Enabled(s, SendGame(d, kind, words)) && Tokens(Next(s, SendGame(d, kind, words)))
    ensures TrafficOk(Next(s, SendGame(d, kind, words)), d)
  {
    SendUp(s, d, kind, words);
    SendLeavesDown(s, Next(s, SendGame(d, kind, words)), d, kind, words);
  }

  lemma DownProcess(s: Sys, d: Id)
    requires Traffic(s) && Enabled(s, Process) && Tokens(Next(s, Process)) && d in s.peers
    ensures d in Next(s, Process).hub.down && DownOk(Next(s, Process), d)
  {
    var t := Next(s, Process);
    var e := s.inLog[s.done];
    var more := Delta(s.hub, e.from, e.packet, d);
    assert DownOk(s, d);
    ProcessDelta(s, d);
    forall p | p in t.hub.down[d]
      ensures DownWire(d, p) && Sourced(t, p)
    {
      if p in more {
        DeltaMembers(s.hub, e.from, e.packet, d, p);
        SentByReceiveIsWire(s, d, p);
      } else {
        EnrolledGrows(s, Process, Subject(p));
      }
    }
  }

  lemma TrafficProcess(s: Sys, d: Id)
    requires Traffic(s) && Enabled(s, Process) && Tokens(Next(s, Process)) && d in s.peers
    ensures d in Next(s, Process).peers && TrafficOk(Next(s, Process), d)
  {
    var t := Next(s, Process);
    var e := s.inLog[s.done];
    assert TrafficOk(s, d);
    DownProcess(s, d);
    ProcessDelta(s, d);
    UpKept(s, Process, d);
    ViewKept(s, t, d, Delta(s.hub, e.from, e.packet, d));
  }

  /** A step of another connection. */
  predicate Elsewhere(st: Step, d: Id) {
    match st
    case Accept => true
    case Validate(c) => c != d
    case Close(_) => true
    case HandleNext(c) => c != d
    case SendGame(c, _, _) => c != d
    case Take(_, _) => true
    case Process => false
  }

  lemma ElsewhereKeeps(s: Sys, st: Step, d: Id)
    requires Base(s) && Enabled(s, st) && d in s.peers && Elsewhere(st, d)
    ensures var t := Next(s, st);
            && d in t.peers && d in t.hub.down && t.hub.down[d] == s.hub.down[d] && t.peers[d].up == s.peers[d].up
            && t.peers[d].seen == s.peers[d].seen && t.peers[d].view == s.peers[d].view
            && t.peers[d].born == s.peers[d].born && t.peers[d].spoiled == s.peers[d].spoiled
  {
  }

  lemma ViewElsewhere(s: Sys, st: Step, d: Id)
    requires Traffic(s) && Enabled(s, st) && d in s.peers && Elsewhere(st, d) && Base(Next(s, st))
    ensures d in Next(s, st).peers && d in Next(s, st).hub.down && ViewOk(Next(s, st), d)
  {
    assert TrafficOk(s, d);
    ElsewhereKeeps(s, st, d);
    assert s.hub.down[d] + [] == s.hub.down[d];
    ViewKept(s, Next(s, st), d, []);
  }

  lemma TrafficOther(s: Sys, st: Step, d: Id)
    requires Traffic(s) && Enabled(s, st) && Tokens(Next(s, st)) && d in s.peers && Elsewhere(st, d)
    ensures d in Next(s, st).peers && TrafficOk(Next(s, st), d)
  {
    ViewElsewhere(s, st, d);
    ElsewhereKeeps(s, st, d);
    DownKept(s, st, d);
    UpKept(s, st, d);
  }

  lemma TrafficNewborn(s: Sys)
    requires Traffic(s) && Enabled(s, Accept) && Tokens(Next(s, Accept))
    ensures TrafficOk(Next(s, Accept), s.next)
  {
  }

  lemma TrafficStepAt(s: Sys, st: Step, d: Id)
    requires Traffic(s) && Enabled(s, st) && Tokens(Next(s, st)) && d in Next(s, st).peers
    ensures TrafficOk(Next(s, st), d)
  {
    if st == Process {
      TrafficProcess(s, d);
    } else if d !in s.peers {
      TrafficNewborn(s);
    } else if st == Validate(d) {
      TrafficValidate(s, d);
    } else if st == HandleNext(d) {
      TrafficHandle(s, d);
    } else if st.SendGame? && st.c == d {
      TrafficSend(s, d, st.kind, st.words);
    } else {
      TrafficOther(s, st, d);
    }
  }

  lemma TrafficStep(s: Sys, st: Step)
    requires Traffic(s) && Enabled(s, st)
    ensures Traffic(Next(s, st))
  {
    TokensStep(s, st);
    if st.Take? {
      QueueTakes(s, st.c, st.packet);
    } else {
      QueueKeeps(s, st);
    }
    forall d | d in Next(s, st).peers
      ensures TrafficOk(Next(s, st), d)
    {
      TrafficStepAt(s, st, d);
    }
  }
}
