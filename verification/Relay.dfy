/** The whole protocol as a state machine: one server, any number of clients, one FIFO channel per
    direction and the server's shared inbound queue. Every channel is a log with a cursor, so what is
    still in flight is the part of the log past the cursor. */
module Relay {
  import opened Words
  import opened Lists
  import opened Packets
  import opened Hubs
  import opened GameMessages
  import opened ClientViews

  /** One connection, both ends. `up` is everything the client has sent and `taken` how much of it the
      server has read; `seen` is how much of the hub's `down` log the client has handled. `born` and
      `spoiled` are history: the inbound cursor at accept time, and whether this connection was
      registered while it had been told of an id that was still connected. */
  datatype Peer = Peer(validated: bool, seen: nat, view: View, up: seq<Packet>, taken: nat, born: nat, spoiled: bool)

  /** An `owned_packet` of m_qMessagesIn. */
  datatype Entry = Entry(from: Id, packet: Packet)

  /** `next` is nIDCounter; `inLog[done..]` is the content of m_qMessagesIn. */
  datatype Sys = Sys(hub: Hub, next: nat, peers: map<Id, Peer>, inLog: seq<Entry>, done: nat)

  datatype Step =
    | Accept
    | Validate(c: Id)
    | Close(c: Id)
    | HandleNext(c: Id)
    | SendGame(c: Id, kind: Word, words: seq<Word>)
    | Take(c: Id, packet: Packet)
    | Process

  ghost predicate Initial(s: Sys) {
    s == Sys(Hub([], [], [], {}, map[]), FIRST_ID, map[], [], 0)
  }

  ghost predicate Enabled(s: Sys, st: Step) {
    match st
    case Accept => |s.hub.clients| < MAX_CLIENTS && s.next + 1 < WORD_BOUND
    case Validate(c) => c in s.peers && c in s.hub.open && !s.peers[c].validated
    case Close(c) => c in s.hub.open
    case HandleNext(c) => c in s.peers && c in s.hub.down && s.peers[c].seen < |s.hub.down[c]|
    case SendGame(c, kind, words) =>
      && c in s.peers && !s.peers[c].view.waiting
      && IsGame(kind) && words != [] && Fits(words)
    case Take(c, q) =>
      && c in s.peers && c in s.hub.open && s.peers[c].validated
      && s.peers[c].taken < |s.peers[c].up| && ReceivedAs(s.peers[c].up[s.peers[c].taken], q)
    case Process =>
      && s.done < |s.inLog|
      && ReceiveDefined(s.hub, s.inLog[s.done].from, s.inLog[s.done].packet)
  }

  /** The replies a handled packet triggers: Accepted is answered with Register. */
  function Replies(p: Packet): seq<Packet> {
    if p.id == CLIENT_ACCEPTED then [NewPacket(CLIENT_REGISTER)] else []
  }

  /** `d` is being registered although what it has been sent so far already names an open connection. */
  predicate Spoils(s: Sys, d: Id)
    requires s.done < |s.inLog|
  {
    var e := s.inLog[s.done];
    && e.packet.id == CLIENT_REGISTER && d == e.from && d in s.hub.down
    && exists x :: x in HandleAll(NEWBORN, s.hub.down[d]).roster && x in s.hub.open
  }

  function Next(s: Sys, st: Step): Sys
    requires Enabled(s, st)
  {
    match st
    case Accept =>
      var id: Id := s.next;
      s.(hub := s.hub.(deque := s.hub.deque + [id], open := s.hub.open + {id}, down := s.hub.down[id := []]),
         next := s.next + 1,
         peers := s.peers[id := Peer(false, 0, NEWBORN, [], 0, s.done, false)])
    case Validate(c) =>
      s.(hub := Sent(s.hub, c, NewPacket(CLIENT_ACCEPTED)),
         peers := s.peers[c := s.peers[c].(validated := true)])
    case Close(c) =>
      s.(hub := s.hub.(open := s.hub.open - {c}))
    case HandleNext(c) =>
      var peer := s.peers[c];
      var p := s.hub.down[c][peer.seen];
      s.(peers := s.peers[c := peer.(seen := peer.seen + 1, view := Handle(peer.view, p), up := peer.up + Replies(p))])
    case SendGame(c, kind, words) =>
      var peer := s.peers[c];
      s.(peers := s.peers[c := peer.(up := peer.up + [Pack(kind, words, peer.view.id)])])
    case Take(c, q) =>
      s.(inLog := s.inLog + [Entry(c, q)],
         peers := s.peers[c := s.peers[c].(taken := s.peers[c].taken + 1)])
    case Process =>
      var e := s.inLog[s.done];
      s.(hub := Receive(s.hub, e.from, e.packet),
         peers := map d | d in s.peers :: s.peers[d].(spoiled := s.peers[d].spoiled || Spoils(s, d)),
         done := s.done + 1)
  }

  /** A run of the protocol: every state follows from the one before by an enabled step. */
  ghost predicate IsRun(run: seq<Sys>) {
    run != [] &&
    if |run| == 1 then Initial(run[0])
    else IsRun(run[..|run| - 1]) && Follows(run[|run| - 2], run[|run| - 1])
  }

  ghost predicate Follows(s: Sys, t: Sys) {
    exists st :: Enabled(s, st) && t == Next(s, st)
  }

  ghost predicate Reachable(s: Sys) {
    exists run :: IsRun(run) && run[|run| - 1] == s
  }

  // ---------- runs by their steps ----------

  const START := Sys(Hub([], [], [], {}, map[]), FIRST_ID, map[], [], 0)

  /** The server takes the packet as it was sent. */
  predicate Whole(s: Sys, st: Step) {
    st.Take? ==> st.c in s.peers && s.peers[st.c].taken < |s.peers[st.c].up|
                 && st.packet == s.peers[st.c].up[s.peers[st.c].taken]
  }

  /** The steps of `sts` one after the other, as long as they are enabled and the server takes every packet as
      it was sent. */
  ghost function Go(s: Sys, sts: seq<Step>): Option<Sys>
    decreases |sts|
  {
    if sts == [] then Some(s)
    else if Enabled(s, sts[0]) && Whole(s, sts[0]) then Go(Next(s, sts[0]), sts[1..])
    else None
  }

  /** Such steps lead to `s`. */
  ghost predicate Regular(s: Sys) {
    exists sts :: Go(START, sts) == Some(s)
  }

  lemma {:induction false} GoFirst(s: Sys, st: Step, sts: seq<Step>)
    requires Enabled(s, st) && Whole(s, st)
    ensures Go(s, [st] + sts) == Go(Next(s, st), sts)
  {
    assert ([st] + sts)[1..] == sts;
  }

  lemma {:induction false} GoOne(s: Sys, st: Step)
    requires Enabled(s, st) && Whole(s, st)
    ensures Go(s, [st]) == Some(Next(s, st))
  {
    assert [st] == [st] + [];
    GoFirst(s, st, []);
  }

  lemma {:induction false} GoLast(s: Sys, sts: seq<Step>, st: Step)
    requires Go(s, sts).Some? && Enabled(Go(s, sts).value, st) && Whole(Go(s, sts).value, st)
    ensures Go(s, sts + [st]) == Some(Next(Go(s, sts).value, st))
    decreases |sts|
  {
    if sts == [] {
      GoOne(s, st);
      assert sts + [st] == [st];
    } else {
      GoLast(Next(s, sts[0]), sts[1..], st);
      assert sts + [st] == [sts[0]] + (sts[1..] + [st]);
      GoFirst(s, sts[0], sts[1..] + [st]);
    }
  }

  lemma RegularNext(s: Sys, st: Step)
    requires Regular(s) && Enabled(s, st) && Whole(s, st)
    ensures Regular(Next(s, st))
  {
    var sts :| Go(START, sts) == Some(s);
    GoLast(START, sts, st);
  }
}
