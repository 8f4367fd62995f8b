/** The registration token: one Accepted per connection, at most one Register, at most one listing. */
module RelayTokens {
  import opened Words
  import opened Lists
  import opened Packets
  import opened Hubs
  import opened GameMessages
  import opened ClientViews
  import opened Relay

  // ---------- counting ----------

  function Count(ps: seq<Packet>, t: Word): nat {
    if ps == [] then 0 else Count(ps[..|ps| - 1], t) + if ps[|ps| - 1].id == t then 1 else 0
  }

  /** The Registers of connection `c` among `es`. */
  function Registers(es: seq<Entry>, c: Id): nat {
    if es == [] then 0
    else
      var e := es[|es| - 1];
      Registers(es[..|es| - 1], c) + if e.from == c && e.packet.id == CLIENT_REGISTER then 1 else 0
  }

  lemma {:induction false} CountAppend(ps: seq<Packet>, qs: seq<Packet>, t: Word)
    ensures Count(ps + qs, t) == Count(ps, t) + Count(qs, t)
  {
    if qs == [] {
      assert ps + qs == ps;
    } else {
      assert (ps + qs)[..|ps + qs| - 1] == ps + qs[..|qs| - 1];
      CountAppend(ps, qs[..|qs| - 1], t);
    }
  }

  lemma {:induction false} CountTake(ps: seq<Packet>, k: nat, t: Word)
    requires k <= |ps|
    ensures Count(ps[..k], t) <= Count(ps, t)
  {
    assert ps == ps[..k] + ps[k..];
    CountAppend(ps[..k], ps[k..], t);
  }

  lemma {:induction false} CountTakeOne(ps: seq<Packet>, k: nat, t: Word)
    requires k < |ps|
    ensures Count(ps[..k + 1], t) == Count(ps[..k], t) + (if ps[k].id == t then 1 else 0)
  {
    assert ps[..k + 1][..k] == ps[..k];
  }

  lemma {:induction false} RegistersTake(es: seq<Entry>, k: nat, c: Id)
    requires k <= |es|
    ensures Registers(es[..k], c) <= Registers(es, c)
  {
    if k < |es| {
      assert es[..|es| - 1][..k] == es[..k];
      RegistersTake(es[..|es| - 1], k, c);
    } else {
      assert es[..k] == es;
    }
  }

  lemma {:induction false} RegistersOne(es: seq<Entry>, e: Entry, c: Id)
    ensures Registers(es + [e], c)
            == Registers(es, c) + (if e.from == c && e.packet.id == CLIENT_REGISTER then 1 else 0)
  {
    assert (es + [e])[..|es|] == es;
  }

  lemma {:induction false} CountIdPackets(t: Word, ids: seq<Id>, u: Word)
    requires t != u
    ensures Count(IdPackets(t, ids), u) == 0
  {
    if ids != [] {
      CountIdPackets(t, ids[..|ids| - 1], u);
    }
  }

  lemma CountWelcome(h: Hub, c: Id, d: Id)
    ensures Count(Welcome(h, c, d), CLIENT_ACCEPTED) == 0
  {
    if d in h.open && d == c {
      var head := [IdPacket(CLIENT_ASSIGN_ID, c), IdPacket(GAME_ADD_CLIENT, c)];
      CountAppend([IdPacket(CLIENT_ASSIGN_ID, c)], [IdPacket(GAME_ADD_CLIENT, c)], CLIENT_ACCEPTED);
      assert head == [IdPacket(CLIENT_ASSIGN_ID, c)] + [IdPacket(GAME_ADD_CLIENT, c)];
      CountIdPackets(GAME_ADD_CLIENT, Living(h.clients + [c], h.open), CLIENT_ACCEPTED);
      CountAppend(head, IdPackets(GAME_ADD_CLIENT, Living(h.clients + [c], h.open)), CLIENT_ACCEPTED);
    }
  }

  /** No server operation sends another Accepted. */
  lemma DeltaSendsNoAccepted(h: Hub, c: Id, p: Packet, d: Id)
    ensures Count(Delta(h, c, p, d), CLIENT_ACCEPTED) == 0
  {
    CountIdPackets(GAME_REMOVE_CLIENT, h.garbage, CLIENT_ACCEPTED);
    CountWelcome(h, c, d);
    var notices := IdPackets(GAME_REMOVE_CLIENT, h.garbage);
    CountAppend(notices, Welcome(h, c, d), CLIENT_ACCEPTED);
    CountAppend(notices, [p], CLIENT_ACCEPTED);
    CountAppend(notices, [], CLIENT_ACCEPTED);
  }

  // ---------- the invariant ----------

  ghost predicate Base(s: Sys) {
    && HubOk(s.hub)
    && s.hub.down.Keys == s.peers.Keys
    && FIRST_ID <= s.next < WORD_BOUND
    && (forall c :: c in s.peers ==> FIRST_ID <= c < s.next)
    && s.done <= |s.inLog|
    && (forall k :: 0 <= k < |s.inLog| ==> s.inLog[k].from in s.peers)
  }

  /** The Registers of `x` the server has processed so far. */
  ghost function Enrolled(s: Sys, x: Id): nat
    requires s.done <= |s.inLog|
  {
    Registers(s.inLog[..s.done], x)
  }

  /** The token of one connection: `inbound` Registers of it have reached the server's queue,
      `enrolled` of these have been processed, and `known` says whether either id vector holds it. */
  ghost predicate Token(down: seq<Packet>, peer: Peer, inbound: nat, enrolled: nat, known: bool) {
    && peer.seen <= |down| && peer.taken <= |peer.up|
    && Count(down, CLIENT_ACCEPTED) == (if peer.validated then 1 else 0)
    && Count(peer.up, CLIENT_REGISTER) == Count(down[..peer.seen], CLIENT_ACCEPTED)
    && inbound == Count(peer.up[..peer.taken], CLIENT_REGISTER)
    && (known ==> enrolled >= 1)
  }

  ghost predicate TokenOk(s: Sys, c: Id)
    requires Base(s) && c in s.peers
  {
    Token(s.hub.down[c], s.peers[c], Registers(s.inLog, c), Enrolled(s, c), c in s.hub.clients || c in s.hub.garbage)
  }

  ghost predicate Tokens(s: Sys) {
    Base(s) && forall c :: c in s.peers ==> TokenOk(s, c)
  }

  /** Each connection causes at most one Register, wherever it currently is. */
  lemma {:induction false} AtMostOneRegister(s: Sys, c: Id)
    requires Base(s) && c in s.peers && TokenOk(s, c)
    ensures Count(s.peers[c].up, CLIENT_REGISTER) <= 1
    ensures Registers(s.inLog, c) <= 1
    ensures Enrolled(s, c) <= 1
  {
    CountTake(s.hub.down[c], s.peers[c].seen, CLIENT_ACCEPTED);
    CountTake(s.peers[c].up, s.peers[c].taken, CLIENT_REGISTER);
    RegistersTake(s.inLog, s.done, c);
  }

  lemma {:induction false} EnrolledNext(s: Sys, c: Id)
    requires s.done < |s.inLog|
    ensures var e := s.inLog[s.done];
            Registers(s.inLog[..s.done + 1], c) ==
            Enrolled(s, c) + (if e.from == c && e.packet.id == CLIENT_REGISTER then 1 else 0)
  {
    assert s.inLog[..s.done + 1] == s.inLog[..s.done] + [s.inLog[s.done]];
    RegistersOne(s.inLog[..s.done], s.inLog[s.done], c);
  }

  /** A Register is only ever processed for a connection that was never registered before. */
  lemma RegisterIsFirst(s: Sys)
    requires Tokens(s) && s.done < |s.inLog| && s.inLog[s.done].packet.id == CLIENT_REGISTER
    ensures var c := s.inLog[s.done].from;
            && c in s.peers && c in s.hub.down && Enrolled(s, c) == 0 && c !in s.hub.clients && c !in s.hub.garbage
  {
    var c := s.inLog[s.done].from;
    assert TokenOk(s, c);
    AtMostOneRegister(s, c);
    EnrolledNext(s, c);
    RegistersTake(s.inLog, s.done + 1, c);
  }

  /** What Process does, for every proof below: the closed form applies. */
  lemma ProcessEffect(s: Sys)
    requires s.done < |s.inLog| && Enabled(s, Process) && Tokens(s)
    ensures var e := s.inLog[s.done];
            var t := Next(s, Process);
            var listed := Listed(s.hub, e.from, e.packet);
            && HubOk(t.hub) && t.hub.open == s.hub.open
            && t.hub.clients == (if Walks(e.packet) then Living(listed, s.hub.open) else s.hub.clients)
            && (forall x :: x in t.hub.garbage <==> Walks(e.packet) && x in Closed(listed, s.hub.open))
            && t.hub.down.Keys == s.hub.down.Keys == t.peers.Keys
  {
    var e := s.inLog[s.done];
    if e.packet.id == CLIENT_REGISTER {
      RegisterIsFirst(s);
    }
    ReceiveEffect(s.hub, e.from, e.packet);
  }

  lemma ProcessDelta(s: Sys, d: Id)
    requires s.done < |s.inLog| && Enabled(s, Process) && Tokens(s) && d in s.hub.down
    ensures var e := s.inLog[s.done];
            var t := Next(s, Process);
            d in t.hub.down && t.hub.down[d] == s.hub.down[d] + Delta(s.hub, e.from, e.packet, d)
  {
    var e := s.inLog[s.done];
    if e.packet.id == CLIENT_REGISTER {
      RegisterIsFirst(s);
    }
    ReceiveDelta(s.hub, e.from, e.packet, d);
  }

  // ---------- preservation, one connection at a time ----------

  lemma {:induction false} TokenDown(down: seq<Packet>, more: seq<Packet>, peer: Peer, inbound: nat, enrolled: nat,
                                     known: bool)
    requires Token(down, peer, inbound, enrolled, known) && Count(more, CLIENT_ACCEPTED) == 0
    ensures Token(down + more, peer, inbound, enrolled, known)
  {
    CountAppend(down, more, CLIENT_ACCEPTED);
    assert (down + more)[..peer.seen] == down[..peer.seen];
  }

  lemma TokenValidated(down: seq<Packet>, peer: Peer, inbound: nat, enrolled: nat, known: bool)
    requires Token(down, peer, inbound, enrolled, known) && !peer.validated
    ensures Token(down + [NewPacket(CLIENT_ACCEPTED)], peer.(validated := true), inbound, enrolled, known)
  {
    CountAppend(down, [NewPacket(CLIENT_ACCEPTED)], CLIENT_ACCEPTED);
    assert (down + [NewPacket(CLIENT_ACCEPTED)])[..peer.seen] == down[..peer.seen];
  }

  lemma TokenHandled(down: seq<Packet>, peer: Peer, inbound: nat, enrolled: nat, known: bool, v: View)
    requires Token(down, peer, inbound, enrolled, known) && peer.seen < |down|
    ensures Token(down, peer.(seen := peer.seen + 1, view := v, up := peer.up + Replies(down[peer.seen])), inbound,
            enrolled, known)
  {
    var more := Replies(down[peer.seen]);
    CountTakeOne(down, peer.seen, CLIENT_ACCEPTED);
    CountAppend(peer.up, more, CLIENT_REGISTER);
    assert (peer.up + more)[..peer.taken] == peer.up[..peer.taken];
  }

  lemma TokenSent(down: seq<Packet>, peer: Peer, inbound: nat, enrolled: nat, known: bool, p: Packet)
    requires Token(down, peer, inbound, enrolled, known) && IsGame(p.id)
    ensures Token(down, peer.(up := peer.up + [p]), inbound, enrolled, known)
  {
    CountAppend(peer.up, [p], CLIENT_REGISTER);
    assert (peer.up + [p])[..peer.taken] == peer.up[..peer.taken];
  }

  lemma TokenTaken(down: seq<Packet>, peer: Peer, inbound: nat, enrolled: nat, known: bool)
    requires Token(down, peer, inbound, enrolled, known) && peer.taken < |peer.up|
    ensures Token(down, peer.(taken := peer.taken + 1),
                  inbound + (if peer.up[peer.taken].id == CLIENT_REGISTER then 1 else 0), enrolled, known)
  {
    CountTakeOne(peer.up, peer.taken, CLIENT_REGISTER);
  }

  lemma {:induction false} NoRegisters(es: seq<Entry>, c: Id)
    requires forall k :: 0 <= k < |es| ==> es[k].from != c
    ensures Registers(es, c) == 0
  {
    if es != [] {
      NoRegisters(es[..|es| - 1], c);
    }
  }

  lemma AcceptKeepsBase(s: Sys)
    requires Base(s) && Enabled(s, Accept)
    ensures Base(Next(s, Accept))
  {
    var t := Next(s, Accept);
    var id: Id := s.next;
    assert id !in s.hub.down && id !in s.hub.deque && id !in s.hub.garbage;
    assert HubOk(t.hub);
  }

  lemma NewcomerHasToken(born: nat, enrolled: nat)
    ensures Token([], Peer(false, 0, NEWBORN, [], 0, born, false), 0, enrolled, false)
  {
  }

  lemma AcceptKeepsToken(s: Sys, c: Id)
    requires Tokens(s) && Enabled(s, Accept) && Base(Next(s, Accept)) && c in Next(s, Accept).peers
    ensures TokenOk(Next(s, Accept), c)
  {
    if c == s.next {
      NoRegisters(s.inLog, c);
      NewcomerHasToken(s.done, Enrolled(s, c));
    } else {
      assert TokenOk(s, c);
    }
  }

  lemma AcceptKeepsTokens(s: Sys)
    requires Tokens(s) && Enabled(s, Accept)
    ensures Tokens(Next(s, Accept))
  {
    AcceptKeepsBase(s);
    forall c | c in Next(s, Accept).peers
      ensures TokenOk(Next(s, Accept), c)
    {
      AcceptKeepsToken(s, c);
    }
  }

  lemma ValidateKeepsToken(s: Sys, b: Id, c: Id)
    requires Tokens(s) && Enabled(s, Validate(b)) && Base(Next(s, Validate(b))) && c in s.peers
    ensures TokenOk(Next(s, Validate(b)), c)
  {
    assert TokenOk(s, c);
    if c == b {
      TokenValidated(s.hub.down[c], s.peers[c], Registers(s.inLog, c), Enrolled(s, c),
        c in s.hub.clients || c in s.hub.garbage);
    }
  }

  lemma ValidateKeepsTokens(s: Sys, b: Id)
    requires Tokens(s) && Enabled(s, Validate(b))
    ensures Tokens(Next(s, Validate(b)))
  {
    assert Base(Next(s, Validate(b)));
    forall c | c in s.peers
      ensures TokenOk(Next(s, Validate(b)), c)
    {
      ValidateKeepsToken(s, b, c);
    }
  }

  lemma CloseKeepsTokens(s: Sys, b: Id)
    requires Tokens(s) && Enabled(s, Close(b))
    ensures Tokens(Next(s, Close(b)))
  {
    var t := Next(s, Close(b));
    forall c | c in t.peers
      ensures TokenOk(t, c)
    {
      assert TokenOk(s, c);
    }
  }

  /** A step that leaves the server's vectors and channels alone. */
  lemma BaseKept(s: Sys, t: Sys, more: seq<Entry>)
    requires Base(s) && t.hub == s.hub && t.next == s.next && t.done == s.done && t.peers.Keys == s.peers.Keys
    requires t.inLog == s.inLog + more && forall e :: e in more ==> e.from in s.peers
    ensures Base(t)
  {
    forall k | 0 <= k < |t.inLog|
      ensures t.inLog[k].from in t.peers
    {
      if k >= |s.inLog| {
        assert more[k - |s.inLog|] in more;
      }
    }
  }

  lemma HandleKeepsToken(s: Sys, t: Sys, b: Id, c: Id, v: View)
    requires Base(s) && Base(t) && c in s.peers && TokenOk(s, c) && b in s.peers && s.peers[b].seen < |s.hub.down[b]|
    requires t.hub == s.hub && t.inLog == s.inLog && t.done == s.done
    requires var peer := s.peers[b];
             var p := s.hub.down[b][peer.seen];
             t.peers == s.peers[b := peer.(seen := peer.seen + 1, view := v, up := peer.up + Replies(p))]
    ensures TokenOk(t, c)
  {
    if c == b {
      TokenHandled(s.hub.down[c], s.peers[c], Registers(s.inLog, c), Enrolled(s, c),
        c in s.hub.clients || c in s.hub.garbage, v);
    }
  }

  lemma HandledKeepsTokens(s: Sys, t: Sys, b: Id, v: View)
    requires Tokens(s) && b in s.peers && s.peers[b].seen < |s.hub.down[b]|
    requires t.hub == s.hub && t.inLog == s.inLog && t.done == s.done && t.next == s.next
    requires var peer := s.peers[b];
             var p := s.hub.down[b][peer.seen];
             t.peers == s.peers[b := peer.(seen := peer.seen + 1, view := v, up := peer.up + Replies(p))]
    ensures Tokens(t)
  {
    BaseKept(s, t, []);
    forall c | c in t.peers
      ensures TokenOk(t, c)
    {
      assert TokenOk(s, c);
      HandleKeepsToken(s, t, b, c, v);
    }
  }

  lemma HandleKeepsTokens(s: Sys, b: Id)
    requires Tokens(s) && Enabled(s, HandleNext(b))
    ensures Tokens(Next(s, HandleNext(b)))
  {
    HandledKeepsTokens(s, Next(s, HandleNext(b)), b, Next(s, HandleNext(b)).peers[b].view);
  }

  lemma SendKeepsTokens(s: Sys, b: Id, kind: Word, words: seq<Word>)
    requires Tokens(s) && Enabled(s, SendGame(b, kind, words))
    ensures Tokens(Next(s, SendGame(b, kind, words)))
  {
    var t := Next(s, SendGame(b, kind, words));
    var p := Pack(kind, words, s.peers[b].view.id);
    PackShape(kind, words, s.peers[b].view.id);
    BaseKept(s, t, []);
    forall c | c in t.peers
      ensures TokenOk(t, c)
    {
      assert TokenOk(s, c);
      if c == b {
        TokenSent(s.hub.down[c], s.peers[c], Registers(s.inLog, c), Enrolled(s, c),
          c in s.hub.clients || c in s.hub.garbage, p);
      }
    }
  }

  lemma TakeKeepsToken(s: Sys, t: Sys, b: Id, q: Packet, c: Id)
    requires Base(s) && Base(t) && c in s.peers && TokenOk(s, c) && b in s.peers
    requires s.peers[b].taken < |s.peers[b].up| && q.id == s.peers[b].up[s.peers[b].taken].id
    requires t.hub == s.hub && t.inLog == s.inLog + [Entry(b, q)] && t.done == s.done
    requires t.peers == s.peers[b := s.peers[b].(taken := s.peers[b].taken + 1)]
    ensures TokenOk(t, c)
  {
    RegistersOne(s.inLog, Entry(b, q), c);
    TakeOfAppend(s.inLog, [Entry(b, q)], s.done);
    if c == b {
      TokenTaken(s.hub.down[c], s.peers[c], Registers(s.inLog, c), Enrolled(s, c),
        c in s.hub.clients || c in s.hub.garbage);
    }
  }

  lemma TakenKeepsTokens(s: Sys, t: Sys, b: Id, q: Packet)
    requires Tokens(s) && b in s.peers
    requires s.peers[b].taken < |s.peers[b].up| && q.id == s.peers[b].up[s.peers[b].taken].id
    requires t.hub == s.hub && t.inLog == s.inLog + [Entry(b, q)] && t.done == s.done && t.next == s.next
    requires t.peers == s.peers[b := s.peers[b].(taken := s.peers[b].taken + 1)]
    ensures Tokens(t)
  {
    BaseKept(s, t, [Entry(b, q)]);
    forall c | c in t.peers
      ensures TokenOk(t, c)
    {
      assert TokenOk(s, c);
      TakeKeepsToken(s, t, b, q, c);
    }
  }

  lemma TakeKeepsTokens(s: Sys, b: Id, q: Packet)
    requires Tokens(s) && Enabled(s, Take(b, q))
    ensures Tokens(Next(s, Take(b, q)))
  {
    TakenKeepsTokens(s, Next(s, Take(b, q)), b, q);
  }

  lemma ProcessKeepsBase(s: Sys)
    requires Tokens(s) && Enabled(s, Process)
    ensures Base(Next(s, Process))
  {
    ProcessEffect(s);
  }

  /** An id the server knows after a step was known before, or its Register has just been processed. */
  lemma ProcessKnows(s: Sys, c: Id)
    requires s.done < |s.inLog| && Enabled(s, Process) && Tokens(s)
    ensures var e := s.inLog[s.done];
            var t := Next(s, Process);
            c in t.hub.clients || c in t.hub.garbage ==>
              c in s.hub.clients || (e.from == c && e.packet.id == CLIENT_REGISTER)
  {
    ProcessEffect(s);
  }

  lemma ProcessKeepsToken(s: Sys, c: Id)
    requires Tokens(s) && Enabled(s, Process) && Base(Next(s, Process)) && c in s.peers
    ensures c in Next(s, Process).peers && TokenOk(Next(s, Process), c)
  {
    var e := s.inLog[s.done];
    var t := Next(s, Process);
    var more := Delta(s.hub, e.from, e.packet, c);
    ProcessDelta(s, c);
    ProcessKnows(s, c);
    EnrolledNext(s, c);
    DeltaSendsNoAccepted(s.hub, e.from, e.packet, c);
    assert TokenOk(s, c);
    TokenDown(s.hub.down[c], more, s.peers[c], Registers(s.inLog, c), Enrolled(s, c),
      c in s.hub.clients || c in s.hub.garbage);
    assert Token(t.hub.down[c], t.peers[c], Registers(t.inLog, c), Enrolled(t, c),
      c in t.hub.clients || c in t.hub.garbage);
  }

  lemma TokensStep(s: Sys, st: Step)
    requires Tokens(s) && Enabled(s, st)
    ensures Tokens(Next(s, st))
  {
    match st
    case Accept => AcceptKeepsTokens(s);
    case Validate(b) => ValidateKeepsTokens(s, b);
    case Close(b) => CloseKeepsTokens(s, b);
    case HandleNext(b) => HandleKeepsTokens(s, b);
    case SendGame(b, kind, words) => SendKeepsTokens(s, b, kind, words);
    case Take(b, q) => TakeKeepsTokens(s, b, q);
    case Process =>
      ProcessKeepsBase(s);
      forall c | c in s.peers
        ensures c in Next(s, st).peers && TokenOk(Next(s, st), c)
      {
        ProcessKeepsToken(s, c);
      }
  }
}
