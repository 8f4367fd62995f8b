/** The whole system: the protocol of module Relay running over two byte links per connection, one in
    each direction, with the handshake, partial writes and reads in between. */
module Systems {
  import opened Words
  import opened Lists
  import opened Packets
  import opened Hubs
  import opened GamePackets
  import opened ClientViews
  import opened ClientStates
  import opened Relay
  import opened RelayTokens
  import opened RelayTraffic
  import opened RelayOrder
  import opened RelayTheorems
  import opened RelayAnnouncements
  import opened EndToEnd
  import T = Transport
  import Framing
  import Delivery
  import Handshake

  /** The protocol state and, for every connection, the challenge it was given, the link to its client, and
      the link from its client once that has answered. `rushed` are the connections for which a posted packet
      has run before the challenge had left. */
  datatype World = World(sys: Sys, issued: map<Id, bv64>, ups: map<Id, T.Net>, downs: map<Id, T.Net>, rushed: set<Id>)

  /** What can happen: a connection is accepted and its challenge written; a client has read its challenge and
      writes the answer; the server has read an answer; a client handles, or the server fetches, the next
      message that its link has handed up; a client sends a game packet, a socket is closed or the server
      handles its queue; a link makes a step of its own. */
  datatype Move =
    | Enter(challenge: bv64)
    | Answer(c: Id, read: bv64)
    | Admit(c: Id)
    | Handles(c: Id)
    | Fetch(c: Id)
    | Local(st: Step)
    | UpMove(c: Id, e: T.Event)
    | DownMove(c: Id, e: T.Event)

  /** A link on which these packets wait to be sent, and no byte has left. */
  function Link(hello: seq<Byte>, posted: seq<Packet>): T.Net {
    Delivery.Posted(hello, posted)
  }

  /** `Send` for each of `ps`. */
  function PostAll(n: T.Net, ps: seq<Packet>): T.Net {
    n.(snd := n.snd.(posted := n.snd.posted + ps, sends := n.snd.sends + ps))
  }

  /** The link is given what its channel has beyond what it was given before. */
  function Onto(n: T.Net, channel: seq<Packet>): T.Net {
    PostAll(n, if |n.snd.sends| <= |channel| then channel[|n.snd.sends|..] else [])
  }

  /** The protocol has come to `t`: every channel's new packets are sent on its link. */
  function After(w: World, t: Sys): World {
    w.(sys := t,
       ups := map c | c in w.ups && c in t.peers :: Onto(w.ups[c], t.peers[c].up),
       downs := map d | d in w.downs && d in t.hub.down :: Onto(w.downs[d], t.hub.down[d]))
  }

  /** What the server expects to read, and what a client that has read `challenge` writes. */
  function AnswerTo(challenge: bv64): seq<Byte> {
    Handshake.Image(Handshake.Scramble(challenge))
  }

  /** When each end does its part. None of this looks at what only the other end can know: the server takes
      what its link hands up for what was sent. What a client does that has been misled about its challenge
      is not followed. */
  ghost predicate Allowed(w: World, m: Move) {
    match m
    case Enter(_) => Enabled(w.sys, Accept)
    case Answer(c, read) =>
      && c in w.sys.peers && c in w.downs && c !in w.ups
      && w.downs[c].rcv.challenge == Some(Handshake.Image(read))
    case Admit(c) =>
      && c in w.sys.peers && c in w.sys.hub.open && !w.sys.peers[c].validated
      && c in w.issued && c in w.ups && w.ups[c].rcv.challenge == Some(AnswerTo(w.issued[c]))
    case Handles(c) =>
      && c in w.sys.peers && c in w.downs && c !in w.rushed
      && w.sys.peers[c].seen < |w.downs[c].rcv.got|
    case Fetch(c) =>
      && c in w.sys.peers && c in w.sys.hub.open && w.sys.peers[c].validated
      && c in w.ups && w.sys.peers[c].taken < |w.ups[c].rcv.got|
    case Local(st) => (st == Process || st.Close? || st.SendGame?) && Enabled(w.sys, st)
    case UpMove(c, e) => c in w.ups && T.Enabled(w.ups[c], e) && !e.Send?
    case DownMove(c, e) => c in w.downs && T.Enabled(w.downs[c], e) && !e.Send?
  }

  /** The one thing that is assumed of a history: the server does not admit a client whose challenge has been
      overtaken. It rejects the answer to every other challenge; see `HandshakeExactly`. */
  predicate Usual(w: World, m: Move) {
    m.Admit? ==> m.c !in w.rushed
  }

  /** The protocol step a move stands for. */
  ghost function StepOf(w: World, m: Move): Option<Step>
    requires Allowed(w, m)
  {
    match m
    case Enter(_) => Some(Accept)
    case Admit(c) => Some(Validate(c))
    case Handles(c) => Some(HandleNext(c))
    case Fetch(c) => Some(Take(c, w.ups[c].rcv.got[w.sys.peers[c].taken]))
    case Local(st) => Some(st)
    case _ => None
  }

  function Entered(w: World, t: Sys, id: Id, challenge: bv64): World {
    w.(sys := t, issued := w.issued[id := challenge], downs := w.downs[id := Link(Handshake.Image(challenge), [])])
  }

  function Answered(w: World, c: Id, read: bv64): World
    requires c in w.sys.peers
  {
    w.(ups := w.ups[c := Link(AnswerTo(read), w.sys.peers[c].up)])
  }

  function DownMoved(w: World, c: Id, e: T.Event): World
    requires c in w.downs && T.Enabled(w.downs[c], e)
  {
    w.(downs := w.downs[c := T.Next(w.downs[c], e)],
       rushed := if T.Hasty(w.downs[c], e) then w.rushed + {c} else w.rushed)
  }

  ghost predicate Moves(w: World, m: Move, v: World) {
    && Allowed(w, m)
    && match m
       case UpMove(c, e) => v == w.(ups := w.ups[c := T.Next(w.ups[c], e)])
       case DownMove(c, e) => v == DownMoved(w, c, e)
       case Answer(c, read) => v == Answered(w, c, read)
       case Enter(challenge) => v == Entered(w, Next(w.sys, Accept), w.sys.next, challenge)
       case _ =>
         && StepOf(w, m).Some? && Enabled(w.sys, StepOf(w, m).value)
         && v == After(w, Next(w.sys, StepOf(w, m).value))
  }

  ghost predicate Starts(w: World) {
    Initial(w.sys) && w == World(w.sys, map[], map[], map[], {})
  }

  ghost predicate IsHistory(run: seq<World>) {
    run != [] &&
    if |run| == 1 then Starts(run[0])
    else IsHistory(run[..|run| - 1]) && CanBecome(run[|run| - 2], run[|run| - 1])
  }

  ghost predicate CanBecome(w: World, v: World) {
    exists m :: Usual(w, m) && Moves(w, m, v)
  }

  ghost predicate Reached(w: World) {
    exists run :: IsHistory(run) && run[|run| - 1] == w
  }

  // ---------- what every history keeps ----------

  /** The packets the server has taken from connection `c`. */
  function PacketsOf(es: seq<Entry>, c: Id): seq<Packet> {
    if es == [] then []
    else PacketsOf(es[..|es| - 1], c) + if es[|es| - 1].from == c then [es[|es| - 1].packet] else []
  }

  /** A link carries just its channel, and its receiver is not ahead of it. */
  ghost predicate LinkOk(n: T.Net, channel: seq<Packet>, used: nat) {
    T.OrderlyReachable(n) && n.snd.sends == channel && used <= |n.rcv.got|
  }

  predicate Answers(hello: seq<Byte>, challenge: Option<seq<Byte>>, read: bv64) {
    challenge == Some(Handshake.Image(read)) && hello == AnswerTo(read)
  }

  /** The server's queue has from `c` what the link from it has handed up. */
  ghost predicate QueueFits(c: Id, taken: nat, log: seq<Entry>, up: Option<T.Net>) {
    match up
    case None => taken == 0 && PacketsOf(log, c) == []
    case Some(n) => taken <= |n.rcv.got| && PacketsOf(log, c) == n.rcv.got[..taken]
  }

  /** The link from a client that has answered carries what the client has sent, and starts with the answer
      to what the client has read. */
  ghost predicate UpFits(peer: Peer, up: T.Net, challenge: Option<seq<Byte>>) {
    LinkOk(up, peer.up, peer.taken) && exists read :: Answers(up.hello, challenge, read)
  }

  ghost predicate DownFits(peer: Peer, channel: seq<Packet>, issued: bv64, down: T.Net) {
    LinkOk(down, channel, peer.seen) && down.hello == Handshake.Image(issued)
  }

  /** The server has read the answer of every client it has admitted. */
  predicate AdmittedFits(validated: bool, up: Option<T.Net>, rushed: bool) {
    validated ==> !rushed && up.Some? && up.value.rcv.challenge.Some?
  }

  /** What is kept of one connection. */
  ghost predicate Linked(c: Id, peer: Peer, channel: seq<Packet>, log: seq<Entry>, issued: bv64, up: Option<T.Net>,
                         down: T.Net, rushed: bool) {
    && QueueFits(c, peer.taken, log, up)
    && (up.Some? ==> UpFits(peer, up.value, down.rcv.challenge))
    && (!rushed ==> DownFits(peer, channel, issued, down))
    && AdmittedFits(peer.validated, up, rushed)
  }

  function UpOf(w: World, c: Id): Option<T.Net> {
    if c in w.ups then Some(w.ups[c]) else None
  }

  predicate KnownTo(w: World, c: Id) {
    c in w.sys.peers && c in w.sys.hub.down && c in w.issued && c in w.downs
  }

  ghost predicate LinkedAt(w: World, c: Id)
    requires KnownTo(w, c)
  {
    Linked(c, w.sys.peers[c], w.sys.hub.down[c], w.sys.inLog, w.issued[c], UpOf(w, c), w.downs[c], c in w.rushed)
  }

  predicate Keyed(w: World) {
    w.sys.peers.Keys == w.sys.hub.down.Keys == w.issued.Keys == w.downs.Keys && w.ups.Keys <= w.sys.peers.Keys
  }

  ghost predicate WorldOk(w: World) {
    && Reachable(w.sys) && Keyed(w)
    && forall c :: c in w.sys.peers ==> LinkedAt(w, c)
  }

  lemma PostNothing(n: T.Net)
    ensures PostAll(n, []) == n
  {
    assert n.snd.posted + [] == n.snd.posted && n.snd.sends + [] == n.snd.sends;
  }

  lemma SnocParts(a: seq<Packet>, b: seq<Packet>, p: Packet)
    ensures a + b + [p] == a + (b + [p])
  {
  }

  lemma PostOneMore(n: T.Net, ps: seq<Packet>, p: Packet)
    requires Agrees(p)
    ensures T.Enabled(PostAll(n, ps), T.Send(p))
    ensures PostAll(n, ps + [p]) == T.Next(PostAll(n, ps), T.Send(p))
  {
    SnocParts(n.snd.posted, ps, p);
    SnocParts(n.snd.sends, ps, p);
  }

  lemma {:induction false} PostAllIsOrderly(n: T.Net, ps: seq<Packet>)
    requires T.OrderlyReachable(n) && forall p :: p in ps ==> Agrees(p)
    ensures T.OrderlyReachable(PostAll(n, ps))
    decreases |ps|
  {
    if ps == [] {
      PostNothing(n);
    } else {
      var rest, p := ps[..|ps| - 1], ps[|ps| - 1];
      PostAllIsOrderly(n, rest);
      PostOneMore(n, rest, p);
      Delivery.OrderlyNext(PostAll(n, rest), T.Send(p));
      SnocBack(ps);
    }
  }

  lemma SnocBack(ps: seq<Packet>)
    requires ps != []
    ensures ps[..|ps| - 1] + [ps[|ps| - 1]] == ps
  {
  }

  lemma OntoKeeps(n: T.Net, channel: seq<Packet>, more: seq<Packet>, used: nat)
    requires LinkOk(n, channel, used) && channel <= more && forall p :: p in more ==> Agrees(p)
    ensures LinkOk(Onto(n, more), more, used)
    ensures Onto(n, more).rcv == n.rcv && Onto(n, more).hello == n.hello
  {
    assert channel + more[|channel|..] == more;
    PostAllIsOrderly(n, more[|channel|..]);
  }

  lemma LinkMoveKeeps(n: T.Net, e: T.Event, channel: seq<Packet>, used: nat)
    requires LinkOk(n, channel, used) && T.Enabled(n, e) && !e.Send? && !T.Hasty(n, e)
    ensures LinkOk(T.Next(n, e), channel, used) && T.Next(n, e).hello == n.hello
    ensures n.rcv.got <= T.Next(n, e).rcv.got
    ensures n.rcv.challenge.Some? ==> T.Next(n, e).rcv.challenge == n.rcv.challenge
  {
    Delivery.OrderlyNext(n, e);
    Delivery.MoveSendsNothing(n, e);
    Delivery.MoveTakesNothingBack(n, e);
  }

  lemma LinkIsFaithful(n: T.Net, channel: seq<Packet>, used: nat, k: nat)
    requires LinkOk(n, channel, used) && k < |n.rcv.got|
    ensures k < |channel| && ReceivedAs(channel[k], n.rcv.got[k])
  {
    Framing.FramingIsCorrect(n);
  }

  lemma ChannelsAgree(s: Sys, c: Id)
    requires Reachable(s) && c in s.peers
    ensures c in s.hub.down && (forall p :: p in s.hub.down[c] ==> Agrees(p))
    ensures forall p :: p in s.peers[c].up ==> Agrees(p)
  {
    ReachableInv(s);
    assert TrafficOk(s, c);
    forall p | p in s.hub.down[c]
      ensures Agrees(p)
    {
      DownAgrees(c, p);
    }
    forall p | p in s.peers[c].up
      ensures Agrees(p)
    {
      if p != NewPacket(CLIENT_REGISTER) {
        SentByShape(c, p);
      }
    }
  }

  lemma DownAgrees(d: Id, p: Packet)
    requires DownWire(d, p)
    ensures Agrees(p)
  {
    IdPacketSubject(CLIENT_ASSIGN_ID, d);
    if IsNotice(p.id) {
      IdPacketSubject(p.id, Subject(p));
    }
  }

  lemma {:induction false} PacketsOfAppend(es: seq<Entry>, e: Entry, c: Id)
    ensures PacketsOf(es + [e], c) == PacketsOf(es, c) + if e.from == c then [e.packet] else []
  {
    assert (es + [e])[..|es|] == es;
  }

  /** What a protocol step does to one connection. */
  lemma StepAt(s: Sys, st: Step, c: Id)
    requires Reachable(s) && Enabled(s, st) && st != Accept && c in s.peers
    ensures var t := Next(s, st);
            && c in s.hub.down && c in t.peers && c in t.hub.down
            && s.hub.down[c] <= t.hub.down[c] && s.peers[c].up <= t.peers[c].up
            && t.peers[c].validated == (s.peers[c].validated || st == Validate(c))
            && t.peers[c].seen == s.peers[c].seen + (if st == HandleNext(c) then 1 else 0)
            && t.peers[c].taken == s.peers[c].taken + (if st.Take? && st.c == c then 1 else 0)
            && t.inLog == (if st.Take? then s.inLog + [Entry(st.c, st.packet)] else s.inLog)
  {
    BaseAt(s);
    if st == Process {
      ProcessedAt(s, c);
    }
  }

  function OntoUp(up: Option<T.Net>, channel: seq<Packet>): Option<T.Net> {
    match up
    case None => None
    case Some(n) => Some(Onto(n, channel))
  }

  lemma UpGrows(peer: Peer, up: T.Net, challenge: Option<seq<Byte>>, peer': Peer)
    requires UpFits(peer, up, challenge) && peer.up <= peer'.up && peer'.taken <= |up.rcv.got|
    requires forall p :: p in peer'.up ==> Agrees(p)
    ensures UpFits(peer', Onto(up, peer'.up), challenge) && Onto(up, peer'.up).rcv == up.rcv
  {
    OntoKeeps(up, peer.up, peer'.up, peer.taken);
    var read :| Answers(up.hello, challenge, read);
    assert Answers(Onto(up, peer'.up).hello, challenge, read);
  }

  lemma DownGrows(peer: Peer, channel: seq<Packet>, issued: bv64, down: T.Net, peer': Peer, channel': seq<Packet>)
    requires DownFits(peer, channel, issued, down) && channel <= channel' && peer'.seen <= |down.rcv.got|
    requires forall p :: p in channel' ==> Agrees(p)
    ensures DownFits(peer', channel', issued, Onto(down, channel'))
  {
    OntoKeeps(down, channel, channel', peer.seen);
  }

  lemma LinkedGrows(c: Id, peer: Peer, channel: seq<Packet>, log: seq<Entry>, issued: bv64, up: Option<T.Net>,
                    down: T.Net, rushed: bool, peer': Peer, channel': seq<Packet>, log': seq<Entry>)
    requires Linked(c, peer, channel, log, issued, up, down, rushed)
    requires peer.up <= peer'.up && (forall p :: p in peer'.up ==> Agrees(p))
    requires channel <= channel' && (forall p :: p in channel' ==> Agrees(p))
    requires QueueFits(c, peer'.taken, log', up) && AdmittedFits(peer'.validated, up, rushed)
    requires !rushed ==> peer'.seen <= |down.rcv.got|
    ensures Linked(c, peer', channel', log', issued, OntoUp(up, peer'.up), Onto(down, channel'), rushed)
  {
    if up.Some? {
      UpGrows(peer, up.value, down.rcv.challenge, peer');
    }
    if !rushed {
      DownGrows(peer, channel, issued, down, peer', channel');
    }
  }

  /** The step takes from the links no more than they have handed up, and admits only whom the server has
      heard. */
  ghost predicate Backed(w: World, st: Step) {
    && (st.HandleNext? ==>
          st.c in w.sys.peers && st.c in w.downs && st.c !in w.rushed
          && w.sys.peers[st.c].seen < |w.downs[st.c].rcv.got|)
    && (st.Take? ==>
          st.c in w.sys.peers && st.c in w.ups && w.sys.peers[st.c].taken < |w.ups[st.c].rcv.got|
          && st.packet == w.ups[st.c].rcv.got[w.sys.peers[st.c].taken])
    && (st.Validate? ==> st.c in w.ups && st.c !in w.rushed && w.ups[st.c].rcv.challenge.Some?)
  }

  /** The server's queue after a step: one more packet of `c` if it took one. */
  lemma TakenGrows(log: seq<Entry>, c: Id, from: Id, up: Option<T.Net>, taken: nat, q: Packet)
    requires QueueFits(c, taken, log, up)
    requires from == c ==> up.Some? && taken < |up.value.rcv.got| && q == up.value.rcv.got[taken]
    ensures QueueFits(c, if from == c then taken + 1 else taken, log + [Entry(from, q)], up)
  {
    PacketsOfAppend(log, Entry(from, q), c);
  }

  lemma QueueGrows(w: World, st: Step, c: Id)
    requires KnownTo(w, c) && Reachable(w.sys) && Enabled(w.sys, st) && st != Accept && Backed(w, st)
    requires QueueFits(c, w.sys.peers[c].taken, w.sys.inLog, UpOf(w, c))
    ensures var t := Next(w.sys, st); c in t.peers && QueueFits(c, t.peers[c].taken, t.inLog, UpOf(w, c))
  {
    StepAt(w.sys, st, c);
    if st.Take? {
      TakenGrows(w.sys.inLog, c, st.c, UpOf(w, c), w.sys.peers[c].taken, st.packet);
    }
  }

  lemma AdmittedGrows(w: World, st: Step, c: Id)
    requires KnownTo(w, c) && Reachable(w.sys) && Enabled(w.sys, st) && st != Accept && Backed(w, st)
    requires AdmittedFits(w.sys.peers[c].validated, UpOf(w, c), c in w.rushed)
    ensures var t := Next(w.sys, st); c in t.peers && AdmittedFits(t.peers[c].validated, UpOf(w, c), c in w.rushed)
  {
    StepAt(w.sys, st, c);
  }

  lemma SeenGrows(w: World, st: Step, c: Id)
    requires KnownTo(w, c) && Reachable(w.sys) && Enabled(w.sys, st) && st != Accept && Backed(w, st)
    requires c !in w.rushed ==> w.sys.peers[c].seen <= |w.downs[c].rcv.got|
    ensures var t := Next(w.sys, st); c in t.peers && (c !in w.rushed ==> t.peers[c].seen <= |w.downs[c].rcv.got|)
  {
    StepAt(w.sys, st, c);
  }

  lemma LinkedStep(w: World, st: Step, c: Id)
    requires WorldOk(w) && Enabled(w.sys, st) && st != Accept && Backed(w, st) && c in w.sys.peers
    ensures var t := Next(w.sys, st);
            c in t.peers && c in t.hub.down
            && Linked(c, t.peers[c], t.hub.down[c], t.inLog, w.issued[c], OntoUp(UpOf(w, c), t.peers[c].up),
                      Onto(w.downs[c], t.hub.down[c]), c in w.rushed)
  {
    var s, t := w.sys, Next(w.sys, st);
    assert LinkedAt(w, c);
    StepAt(s, st, c);
    ReachableNext(s, st);
    ChannelsAgree(t, c);
    QueueGrows(w, st, c);
    AdmittedGrows(w, st, c);
    SeenGrows(w, st, c);
    LinkedGrows(c, s.peers[c], s.hub.down[c], s.inLog, w.issued[c], UpOf(w, c), w.downs[c], c in w.rushed,
                t.peers[c], t.hub.down[c], t.inLog);
  }

  lemma KeysKept(s: Sys, st: Step)
    requires Reachable(s) && Enabled(s, st) && st != Accept
    ensures Next(s, st).peers.Keys == s.peers.Keys == Next(s, st).hub.down.Keys
  {
    BaseAt(s);
    ReachableNext(s, st);
    BaseAt(Next(s, st));
  }

  lemma AfterKeys(w: World, t: Sys)
    requires Keyed(w) && t.peers.Keys == w.sys.peers.Keys == t.hub.down.Keys
    ensures Keyed(After(w, t))
    ensures forall c :: c in t.peers ==>
              && KnownTo(After(w, t), c) && UpOf(After(w, t), c) == OntoUp(UpOf(w, c), t.peers[c].up)
              && After(w, t).downs[c] == Onto(w.downs[c], t.hub.down[c])
  {
  }

  lemma StepKeeps(w: World, st: Step)
    requires WorldOk(w) && Enabled(w.sys, st) && st != Accept && Backed(w, st)
    ensures WorldOk(After(w, Next(w.sys, st)))
  {
    var t := Next(w.sys, st);
    var v := After(w, t);
    ReachableNext(w.sys, st);
    KeysKept(w.sys, st);
    AfterKeys(w, t);
    forall c | c in t.peers
      ensures LinkedAt(v, c)
    {
      LinkedStep(w, st, c);
    }
  }

  // ---------- moves that concern one connection ----------

  /** Connection `c` is as it was. */
  ghost predicate SameAt(w: World, v: World, c: Id) {
    && KnownTo(w, c) && KnownTo(v, c)
    && v.sys.peers[c] == w.sys.peers[c] && v.sys.hub.down[c] == w.sys.hub.down[c] && v.sys.inLog == w.sys.inLog
    && v.issued[c] == w.issued[c] && UpOf(v, c) == UpOf(w, c) && v.downs[c] == w.downs[c]
    && (c in v.rushed <==> c in w.rushed)
  }

  lemma LinkedKept(w: World, v: World, c: Id)
    requires SameAt(w, v, c) && LinkedAt(w, c)
    ensures LinkedAt(v, c)
  {
  }

  /** All connections but `b` are as they were, and `b` is linked. */
  lemma WorldKept(w: World, v: World, b: Id)
    requires WorldOk(w) && Reachable(v.sys) && Keyed(v) && v.sys.peers.Keys == w.sys.peers.Keys + {b}
    requires forall c :: c in w.sys.peers && c != b ==> SameAt(w, v, c)
    requires LinkedAt(v, b)
    ensures WorldOk(v)
  {
    forall c | c in v.sys.peers
      ensures LinkedAt(v, c)
    {
      if c != b {
        LinkedKept(w, v, c);
      }
    }
  }

  /** Connection `b` as it is now, the protocol unchanged. */
  function Relink(w: World, b: Id, up: Option<T.Net>, down: T.Net, rushed: bool): World {
    w.(ups := if up.Some? then w.ups[b := up.value] else w.ups, downs := w.downs[b := down],
       rushed := if rushed then w.rushed + {b} else w.rushed)
  }

  lemma AddMember(ids: set<Id>, b: Id)
    requires b in ids
    ensures ids + {b} == ids
  {
  }

  lemma RelinkedKeys(w: World, b: Id, up: Option<T.Net>, down: T.Net, rushed: bool)
    requires Keyed(w) && b in w.sys.peers
    ensures Keyed(Relink(w, b, up, down, rushed))
  {
  }

  lemma RelinkedElsewhere(w: World, b: Id, up: Option<T.Net>, down: T.Net, rushed: bool)
    requires Keyed(w)
    ensures forall c :: c in w.sys.peers && c != b ==> SameAt(w, Relink(w, b, up, down, rushed), c)
  {
  }

  lemma RelinkedAt(w: World, b: Id, up: Option<T.Net>, down: T.Net, rushed: bool)
    requires KnownTo(w, b) && (up.None? ==> b !in w.ups)
    requires Linked(b, w.sys.peers[b], w.sys.hub.down[b], w.sys.inLog, w.issued[b], up, down, rushed || b in w.rushed)
    ensures LinkedAt(Relink(w, b, up, down, rushed), b)
  {
  }

  lemma Relinked(w: World, b: Id, up: Option<T.Net>, down: T.Net, rushed: bool)
    requires WorldOk(w) && b in w.sys.peers && (up.None? ==> b !in w.ups)
    requires Linked(b, w.sys.peers[b], w.sys.hub.down[b], w.sys.inLog, w.issued[b], up, down, rushed || b in w.rushed)
    ensures WorldOk(Relink(w, b, up, down, rushed))
  {
    AddMember(w.sys.peers.Keys, b);
    RelinkedKeys(w, b, up, down, rushed);
    RelinkedElsewhere(w, b, up, down, rushed);
    RelinkedAt(w, b, up, down, rushed);
    WorldKept(w, Relink(w, b, up, down, rushed), b);
  }

  // ---------- a link moves ----------

  /** A client has nothing to send before the server has admitted it. */
  lemma SilentUntilAdmitted(s: Sys, c: Id)
    requires Reachable(s) && c in s.peers && !s.peers[c].validated
    ensures s.peers[c].up == []
  {
    ReachableInv(s);
    assert TokenOk(s, c) && TrafficOk(s, c);
    CountTake(s.hub.down[c], s.peers[c].seen, CLIENT_ACCEPTED);
    CountTake(s.peers[c].up, s.peers[c].taken, CLIENT_REGISTER);
    RegistersTake(s.inLog, s.done, c);
    if s.peers[c].up != [] {
      var p := s.peers[c].up[0];
      assert p in s.peers[c].up && UpWire(c, Enrolled(s, c) >= 1, p);
      CountedIfThere(s.peers[c].up, 0, CLIENT_REGISTER);
    }
  }

  lemma {:induction false} CountedIfThere(ps: seq<Packet>, k: nat, t: Word)
    requires k < |ps| && ps[k].id == t
    ensures Count(ps, t) > 0
  {
    CountTakeOne(ps, k, t);
    CountTake(ps, k + 1, t);
  }

  /** So the pump of a client never overtakes its answer. */
  lemma UpNeverRushes(peer: Peer, up: T.Net, challenge: Option<seq<Byte>>, e: T.Event)
    requires UpFits(peer, up, challenge) && T.Enabled(up, e)
    requires peer.up == [] || up.rcv.challenge.Some?
    ensures !T.Hasty(up, e)
  {
    if peer.up == [] {
      Framing.OrderlyReachableOk(up);
    } else {
      Delivery.ReadMeansOut(up);
    }
  }

  lemma UpMoves(peer: Peer, up: T.Net, challenge: Option<seq<Byte>>, e: T.Event)
    requires UpFits(peer, up, challenge) && T.Enabled(up, e) && !e.Send?
    requires peer.up == [] || up.rcv.challenge.Some?
    ensures UpFits(peer, T.Next(up, e), challenge)
    ensures up.rcv.got <= T.Next(up, e).rcv.got && (up.rcv.challenge.Some? ==> T.Next(up, e).rcv.challenge.Some?)
  {
    UpNeverRushes(peer, up, challenge, e);
    LinkMoveKeeps(up, e, peer.up, peer.taken);
    var read :| Answers(up.hello, challenge, read);
    assert Answers(T.Next(up, e).hello, challenge, read);
  }

  lemma QueueStays(c: Id, taken: nat, log: seq<Entry>, n: T.Net, m: T.Net)
    requires QueueFits(c, taken, log, Some(n)) && n.rcv.got <= m.rcv.got
    ensures QueueFits(c, taken, log, Some(m))
  {
    assert m.rcv.got[..taken] == n.rcv.got[..taken];
  }

  lemma UpMoveLinked(c: Id, peer: Peer, channel: seq<Packet>, log: seq<Entry>, issued: bv64, up: T.Net, down: T.Net,
                     rushed: bool, e: T.Event)
    requires Linked(c, peer, channel, log, issued, Some(up), down, rushed) && (!peer.validated ==> peer.up == [])
    requires T.Enabled(up, e) && !e.Send?
    ensures Linked(c, peer, channel, log, issued, Some(T.Next(up, e)), down, rushed)
  {
    UpMoves(peer, up, down.rcv.challenge, e);
    QueueStays(c, peer.taken, log, up, T.Next(up, e));
  }

  /** Nor is the challenge of an admitted client overtaken. */
  lemma AdmittedNeverRushes(c: Id, peer: Peer, channel: seq<Packet>, log: seq<Entry>, issued: bv64,
                            up: Option<T.Net>, down: T.Net, rushed: bool, e: T.Event)
    requires Linked(c, peer, channel, log, issued, up, down, rushed) && T.Enabled(down, e) && peer.validated
    ensures !T.Hasty(down, e)
  {
    var read :| Answers(up.value.hello, down.rcv.challenge, read);
    Delivery.ReadMeansOut(down);
  }

  lemma DownMoveLinked(c: Id, peer: Peer, channel: seq<Packet>, log: seq<Entry>, issued: bv64, up: Option<T.Net>,
                       down: T.Net, rushed: bool, e: T.Event)
    requires Linked(c, peer, channel, log, issued, up, down, rushed) && T.Enabled(down, e) && !e.Send?
    ensures Linked(c, peer, channel, log, issued, up, T.Next(down, e), rushed || T.Hasty(down, e))
  {
    Delivery.MoveTakesNothingBack(down, e);
    if up.Some? {
      var read :| Answers(up.value.hello, down.rcv.challenge, read);
      assert Answers(up.value.hello, T.Next(down, e).rcv.challenge, read);
    }
    if peer.validated {
      AdmittedNeverRushes(c, peer, channel, log, issued, up, down, rushed, e);
    }
    if !rushed && !T.Hasty(down, e) {
      LinkMoveKeeps(down, e, channel, peer.seen);
    }
  }

  lemma NewLink(hello: seq<Byte>, posted: seq<Packet>)
    requires |hello| == T.GREETING_SIZE && forall p :: p in posted ==> Agrees(p)
    ensures LinkOk(Link(hello, posted), posted, 0)
  {
    Delivery.AnyListIsPosted(hello, posted);
  }

  lemma AnswerLinked(c: Id, peer: Peer, channel: seq<Packet>, log: seq<Entry>, issued: bv64, down: T.Net, rushed: bool,
                     read: bv64)
    requires Linked(c, peer, channel, log, issued, None, down, rushed) && forall p :: p in peer.up ==> Agrees(p)
    requires down.rcv.challenge == Some(Handshake.Image(read))
    ensures Linked(c, peer, channel, log, issued, Some(Link(AnswerTo(read), peer.up)), down, rushed)
  {
    NewLink(AnswerTo(read), peer.up);
    assert Answers(AnswerTo(read), down.rcv.challenge, read);
  }

  lemma SameNets(m: map<Id, T.Net>, b: Id)
    requires b in m
    ensures m[b := m[b]] == m
  {
  }

  lemma UpMoveKeeps(w: World, b: Id, e: T.Event)
    requires WorldOk(w) && b in w.ups && T.Enabled(w.ups[b], e) && !e.Send?
    ensures WorldOk(w.(ups := w.ups[b := T.Next(w.ups[b], e)]))
  {
    assert LinkedAt(w, b);
    if !w.sys.peers[b].validated {
      SilentUntilAdmitted(w.sys, b);
    }
    UpMoveLinked(b, w.sys.peers[b], w.sys.hub.down[b], w.sys.inLog, w.issued[b], w.ups[b], w.downs[b],
                 b in w.rushed, e);
    SameNets(w.downs, b);
    Relinked(w, b, Some(T.Next(w.ups[b], e)), w.downs[b], false);
  }

  lemma UpOfSame(w: World, b: Id)
    ensures (if UpOf(w, b).Some? then w.ups[b := UpOf(w, b).value] else w.ups) == w.ups
  {
  }

  lemma DownMoveKeeps(w: World, b: Id, e: T.Event)
    requires WorldOk(w) && b in w.downs && T.Enabled(w.downs[b], e) && !e.Send?
    ensures WorldOk(DownMoved(w, b, e))
  {
    assert LinkedAt(w, b);
    DownMoveLinked(b, w.sys.peers[b], w.sys.hub.down[b], w.sys.inLog, w.issued[b], UpOf(w, b), w.downs[b],
                   b in w.rushed, e);
    UpOfSame(w, b);
    Relinked(w, b, UpOf(w, b), T.Next(w.downs[b], e), T.Hasty(w.downs[b], e));
  }

  lemma AnswerKeeps(w: World, b: Id, read: bv64)
    requires WorldOk(w) && Allowed(w, Answer(b, read))
    ensures WorldOk(Answered(w, b, read))
  {
    assert LinkedAt(w, b);
    ChannelsAgree(w.sys, b);
    AnswerLinked(b, w.sys.peers[b], w.sys.hub.down[b], w.sys.inLog, w.issued[b], w.downs[b], b in w.rushed, read);
    SameNets(w.downs, b);
    Relinked(w, b, Some(Link(AnswerTo(read), w.sys.peers[b].up)), w.downs[b], false);
  }

  // ---------- a connection is accepted ----------

  lemma {:induction false} NothingFrom(es: seq<Entry>, c: Id)
    requires forall k :: 0 <= k < |es| ==> es[k].from != c
    ensures PacketsOf(es, c) == []
  {
    if es != [] {
      NothingFrom(es[..|es| - 1], c);
    }
  }

  lemma NewcomerIsLinked(log: seq<Entry>, c: Id, born: nat, challenge: bv64)
    requires forall k :: 0 <= k < |log| ==> log[k].from != c
    ensures Linked(c, Peer(false, 0, NEWBORN, [], 0, born, false), [], log, challenge, None,
                   Link(Handshake.Image(challenge), []), false)
  {
    NewLink(Handshake.Image(challenge), []);
    NothingFrom(log, c);
  }

  lemma AcceptsNew(s: Sys)
    requires Reachable(s) && Enabled(s, Accept)
    ensures s.next !in s.peers && forall k :: 0 <= k < |s.inLog| ==> s.inLog[k].from != s.next
  {
    BaseAt(s);
  }

  lemma EnteredLinked(w: World, challenge: bv64)
    requires Enabled(w.sys, Accept) && w.sys.next !in w.ups && w.sys.next !in w.rushed
    requires forall k :: 0 <= k < |w.sys.inLog| ==> w.sys.inLog[k].from != w.sys.next
    ensures LinkedAt(Entered(w, Next(w.sys, Accept), w.sys.next, challenge), w.sys.next)
  {
    NewcomerIsLinked(w.sys.inLog, w.sys.next, w.sys.done, challenge);
  }

  lemma EnteredKeys(w: World, challenge: bv64)
    requires Enabled(w.sys, Accept) && Keyed(w)
    ensures var v := Entered(w, Next(w.sys, Accept), w.sys.next, challenge);
            Keyed(v) && v.sys.peers.Keys == w.sys.peers.Keys + {w.sys.next}
  {
  }

  lemma EnteredElsewhere(w: World, challenge: bv64)
    requires Enabled(w.sys, Accept) && Keyed(w)
    ensures forall c :: c in w.sys.peers && c != w.sys.next ==>
              SameAt(w, Entered(w, Next(w.sys, Accept), w.sys.next, challenge), c)
  {
  }

  lemma EnterKeeps(w: World, challenge: bv64)
    requires WorldOk(w) && w.rushed <= w.sys.peers.Keys && Enabled(w.sys, Accept)
    ensures WorldOk(Entered(w, Next(w.sys, Accept), w.sys.next, challenge))
  {
    AcceptsNew(w.sys);
    ReachableNext(w.sys, Accept);
    EnteredLinked(w, challenge);
    EnteredKeys(w, challenge);
    EnteredElsewhere(w, challenge);
    WorldKept(w, Entered(w, Next(w.sys, Accept), w.sys.next, challenge), w.sys.next);
  }

  // ---------- every history ----------

  lemma MoveIsBacked(w: World, m: Move)
    requires Allowed(w, m) && Usual(w, m) && StepOf(w, m).Some? && !m.Enter?
    ensures StepOf(w, m).value != Accept && Backed(w, StepOf(w, m).value)
  {
  }

  lemma MoveKeeps(w: World, m: Move, v: World)
    requires WorldOk(w) && w.rushed <= w.sys.peers.Keys && Usual(w, m) && Moves(w, m, v)
    ensures WorldOk(v)
  {
    if m.UpMove? {
      UpMoveKeeps(w, m.c, m.e);
    } else if m.DownMove? {
      DownMoveKeeps(w, m.c, m.e);
    } else if m.Answer? {
      AnswerKeeps(w, m.c, m.read);
    } else if m.Enter? {
      EnterKeeps(w, m.challenge);
    } else {
      MoveIsBacked(w, m);
      StepKeeps(w, StepOf(w, m).value);
    }
  }

  lemma RushedAreKnown(w: World, m: Move, v: World)
    requires Keyed(w) && Keyed(v) && Moves(w, m, v)
    requires w.rushed <= w.sys.peers.Keys <= v.sys.peers.Keys
    ensures v.rushed <= v.sys.peers.Keys
  {
  }

  lemma PeersStay(w: World, m: Move, v: World)
    requires Reachable(w.sys) && Moves(w, m, v)
    ensures w.sys.peers.Keys <= v.sys.peers.Keys
  {
    if !m.UpMove? && !m.DownMove? && !m.Answer? && !m.Enter? {
      KeysKept(w.sys, StepOf(w, m).value);
    }
  }

  lemma {:induction false} HistoryOk(run: seq<World>)
    requires IsHistory(run)
    ensures WorldOk(run[|run| - 1]) && run[|run| - 1].rushed <= run[|run| - 1].sys.peers.Keys
  {
    var last := |run| - 1;
    if last == 0 {
      assert IsRun([run[0].sys]);
    } else {
      HistoryOk(run[..last]);
      var m :| Usual(run[last - 1], m) && Moves(run[last - 1], m, run[last]);
      MoveKeeps(run[last - 1], m, run[last]);
      PeersStay(run[last - 1], m, run[last]);
      RushedAreKnown(run[last - 1], m, run[last]);
    }
  }

  lemma ReachedOk(w: World)
    requires Reached(w)
    ensures WorldOk(w) && w.rushed <= w.sys.peers.Keys
  {
    var run :| IsHistory(run) && run[|run| - 1] == w;
    HistoryOk(run);
  }

  // ---------- the main results ----------

  lemma LinksAt(w: World, c: Id)
    requires Reached(w) && c in w.sys.peers
    ensures Reachable(w.sys) && KnownTo(w, c) && LinkedAt(w, c)
  {
    ReachedOk(w);
  }

  /** What is known of a link to a client. */
  lemma DownAt(w: World, d: Id)
    requires Reached(w) && d in w.downs && d !in w.rushed
    ensures d in w.sys.peers && d in w.sys.hub.down && Reachable(w.sys)
    ensures LinkOk(w.downs[d], w.sys.hub.down[d], w.sys.peers[d].seen)
  {
    ReachedOk(w);
    LinksAt(w, d);
  }

  /** What is known of a link from a client. */
  lemma {:induction false} UpAt(w: World, c: Id)
    requires Reached(w) && c in w.ups
    ensures c in w.sys.peers && Reachable(w.sys) && LinkOk(w.ups[c], w.sys.peers[c].up, w.sys.peers[c].taken)
    ensures PacketsOf(w.sys.inLog, c) == w.ups[c].rcv.got[..w.sys.peers[c].taken]
  {
    ReachedOk(w);
    LinksAt(w, c);
  }

  /** The links keep the protocol's promises: in every history the protocol is in a reachable state, and
      whatever the ends do on what their links hand up is a step the protocol allows. */
  lemma RefinesProtocol(w: World, m: Move)
    requires Reached(w) && Allowed(w, m)
    ensures Reachable(w.sys)
    ensures StepOf(w, m).Some? ==> Enabled(w.sys, StepOf(w, m).value)
  {
    ReachedOk(w);
    if m.Handles? {
      DownAt(w, m.c);
      LinkIsFaithful(w.downs[m.c], w.sys.hub.down[m.c], w.sys.peers[m.c].seen, w.sys.peers[m.c].seen);
    } else if m.Fetch? {
      UpAt(w, m.c);
      LinkIsFaithful(w.ups[m.c], w.sys.peers[m.c].up, w.sys.peers[m.c].taken, w.sys.peers[m.c].taken);
    }
  }

  /** And that step is all it does to the protocol; a move that stands for none leaves it alone. */
  lemma MovesAreSteps(w: World, m: Move, v: World)
    requires Moves(w, m, v)
    ensures match StepOf(w, m)
            case None => v.sys == w.sys
            case Some(st) => Enabled(w.sys, st) && v.sys == Next(w.sys, st)
  {
  }

  lemma ReadIsHello(n: T.Net)
    requires T.OrderlyReachable(n) && n.rcv.challenge.Some?
    ensures n.rcv.challenge.value == n.hello
  {
    Framing.FramingIsCorrect(n);
  }

  lemma SameAnswer(read: bv64, challenge: bv64)
    ensures AnswerTo(read) == AnswerTo(challenge) <==> Handshake.Image(read) == Handshake.Image(challenge)
  {
    if AnswerTo(read) == AnswerTo(challenge) {
      Handshake.ImageIsInjective(Handshake.Scramble(read), Handshake.Scramble(challenge));
      Handshake.ScrambleIsBijection(read, read);
      Handshake.ScrambleIsBijection(challenge, challenge);
    } else if Handshake.Image(read) == Handshake.Image(challenge) {
      Handshake.ImageIsInjective(read, challenge);
    }
  }

  lemma AnswerIsRead(up: T.Net, challenge: Option<seq<Byte>>, issued: bv64, peer: Peer)
    requires UpFits(peer, up, challenge) && up.rcv.challenge.Some?
    ensures challenge.Some?
    ensures up.rcv.challenge == Some(AnswerTo(issued)) <==> challenge == Some(Handshake.Image(issued))
  {
    ReadIsHello(up);
    var read :| Answers(up.hello, challenge, read);
    SameAnswer(read, issued);
  }

  /** The handshake, exactly, whatever has been overtaken: the answer that the server reads is the one it
      compares with if and only if the client had read the challenge that was issued for it. */
  lemma HandshakeExactly(w: World, c: Id)
    requires Reached(w) && c in w.ups && w.ups[c].rcv.challenge.Some?
    ensures c in w.downs && c in w.issued && w.downs[c].rcv.challenge.Some?
    ensures w.ups[c].rcv.challenge == Some(AnswerTo(w.issued[c]))
            <==> w.downs[c].rcv.challenge == Some(Handshake.Image(w.issued[c]))
  {
    UpAt(w, c);
    LinksAt(w, c);
    AnswerIsRead(w.ups[c], w.downs[c].rcv.challenge, w.issued[c], w.sys.peers[c]);
  }

  /** Whoever the server admits has read the challenge that was issued for its connection. */
  lemma OnlyTheChallengedAreAdmitted(w: World, c: Id)
    requires Reached(w) && Allowed(w, Admit(c))
    ensures c in w.downs && w.downs[c].rcv.challenge == Some(Handshake.Image(w.issued[c]))
  {
    HandshakeExactly(w, c);
  }

  /** So it never turns an honest client away. */
  lemma HandshakeSucceeds(w: World, c: Id)
    requires Reached(w) && c in w.ups && w.ups[c].rcv.challenge.Some? && c !in w.rushed
    ensures c in w.issued && w.ups[c].rcv.challenge == Some(AnswerTo(w.issued[c]))
  {
    HandshakeExactly(w, c);
    DownAt(w, c);
    LinksAt(w, c);
    ReadIsHello(w.downs[c]);
  }

  /** The server has not accepted 2^31 connections yet. Only a client that was registered while it knew a
      connected id could be told of so many others twice. */
  ghost predicate Roomy(s: Sys, d: Id) {
    d in s.peers && s.peers[d].spoiled ==> 2 * (s.next - FIRST_ID) < WORD_BOUND
  }

  lemma {:induction false} RoomyFits(s: Sys, d: Id, n: nat)
    requires Reachable(s) && d in s.peers && Roomy(s, d) && d in s.hub.down && n <= |s.hub.down[d]|
    ensures RostersFit(s.hub.down[d], n)
  {
    if s.peers[d].spoiled {
      RosterIsBounded(s, d, n);
    } else {
      RosterIsShort(s, d, n);
    }
    if n > 0 {
      RoomyFits(s, d, n - 1);
    }
  }

  /** A client that has handled the messages its link handed up is in the state the protocol gives it. */
  lemma ClientRunsTheProtocol(w: World, d: Id)
    requires Reached(w) && d in w.sys.peers && d in w.downs && d !in w.rushed && Roomy(w.sys, d)
    ensures w.sys.peers[d].seen <= |w.downs[d].rcv.got|
    ensures HandleStates(w.downs[d].rcv.got[..w.sys.peers[d].seen]).Some?
    ensures ViewOf(HandleStates(w.downs[d].rcv.got[..w.sys.peers[d].seen]).value) == w.sys.peers[d].view
  {
    DownAt(w, d);
    TrafficAt(w.sys, d);
    RoomyFits(w.sys, d, w.sys.peers[d].seen);
    LinkIsHandled(w.downs[d], w.sys, d, w.sys.peers[d].seen);
  }

  lemma {:induction false} InGamesAreEntries(es: seq<Entry>, c: Id, p: Packet)
    requires p in InGames(es, c)
    ensures p in PacketsOf(es, c)
  {
    var rest, e := es[..|es| - 1], es[|es| - 1];
    if !(IsGame(e.packet.id) && e.from == c && e.packet == p) {
      InGamesAreEntries(rest, c, p);
    }
  }

  lemma MemberOfMiddle(a: seq<Packet>, b: seq<Packet>, m: seq<Packet>, all: seq<Packet>, p: Packet)
    requires p in b && b <= m && a + m <= all
    ensures p in all
  {
    var k :| 0 <= k < |b| && b[k] == p;
    assert m[k] == p;
    MemberOfSuffix(a, m, all, p);
  }

  /** A game packet on a channel is one that the server has taken from its sender. */
  lemma WasTaken(s: Sys, d: Id, p: Packet)
    requires Reachable(s) && d in s.peers && d in s.hub.down && p in s.hub.down[d] && IsGame(p.id)
    ensures Subject(p) in s.peers && Subject(p) != d && p in PacketsOf(s.inLog, Subject(p))
  {
    var c := Subject(p);
    SubjectIsPeer(s, d, p);
    OrderAt(s, d, c);
    GamesOfMembers(s.hub.down[d], c, p);
    InGamesSplit(s.inLog, s.peers[d].born, s.done, c);
    MemberOfMiddle(InGames(s.inLog[..s.peers[d].born], c), GamesOf(s.hub.down[d], c),
                   InGames(s.inLog[s.peers[d].born..s.done], c), InGames(s.inLog, c), p);
    InGamesAreEntries(s.inLog, c, p);
  }

  /** The `j`-th message of client `c` came through its link whole. */
  ghost predicate CameFrom(w: World, c: Id, p: Packet, j: nat) {
    && c in w.ups && j < |w.ups[c].snd.sends| && j < |w.ups[c].rcv.got|
    && w.ups[c].snd.sends[j] == p == w.ups[c].rcv.got[j]
  }

  lemma {:induction false} CameThrough(w: World, c: Id, p: Packet)
    requires Reached(w) && c in w.sys.peers && p in PacketsOf(w.sys.inLog, c) && p.size > 0
    ensures exists j :: CameFrom(w, c, p, j)
  {
    LinksAt(w, c);
    var up, taken := w.ups[c], w.sys.peers[c].taken;
    var j :| 0 <= j < taken && up.rcv.got[..taken][j] == p;
    LinkIsFaithful(up, w.sys.peers[c].up, taken, j);
    assert CameFrom(w, c, p, j);
  }

  lemma GetsWhatWasRelayed(w: World, d: Id, k: nat)
    requires Reached(w) && d in w.downs && d !in w.rushed
    requires k < |w.downs[d].rcv.got| && IsGame(w.downs[d].rcv.got[k].id)
    ensures d in w.sys.peers && d in w.sys.hub.down && Reachable(w.sys) && Carries(w.downs[d], w.sys, d)
    ensures k < |w.sys.hub.down[d]| && w.downs[d].rcv.got[k] == w.sys.hub.down[d][k] && w.sys.hub.down[d][k].size > 0
  {
    DownAt(w, d);
    LinkIsFaithful(w.downs[d], w.sys.hub.down[d], w.sys.peers[d].seen, k);
    ChannelGamePoppable(w.sys, d, w.sys.hub.down[d][k], []);
  }

  /** What client `d` makes of the packet `p`, the `k`-th it is handed, when `c` made it of `gs`. */
  ghost predicate ReadsAt(w: World, d: Id, k: nat, p: Packet, c: Id, gs: seq<GamePacket>) {
    && d in w.downs && d in w.sys.hub.down && k < |w.downs[d].rcv.got| && k < |w.sys.hub.down[d]|
    && w.downs[d].rcv.got[k] == p && HandleStates(w.downs[d].rcv.got[..k]).Some?
    && ReadsAs(HandleStates(w.downs[d].rcv.got[..k]).value, p, c, gs, c in ViewAt(w.sys, d, k).roster)
  }

  lemma IsReadAsMade(w: World, d: Id, k: nat, p: Packet, gs: seq<GamePacket>)
    requires Reached(w) && d in w.downs && d !in w.rushed
    requires k < |w.downs[d].rcv.got| && w.downs[d].rcv.got[k] == p
    requires Roomy(w.sys, d) && MadeOf(p, Subject(p), gs)
    ensures ReadsAt(w, d, k, p, Subject(p), gs)
  {
    GetsWhatWasRelayed(w, d, k);
    RoomyFits(w.sys, d, k);
    LinkIsHandled(w.downs[d], w.sys, d, k);
    RostersFitAt(w.sys.hub.down[d], k);
    var m := HandleStates(w.downs[d].rcv.got[..k]).value;
    ChannelGamePoppable(w.sys, d, p, m.peers);
    Unpacked(m, p, Subject(p), gs);
  }

  /** End-to-end delivery, for every message a client ever gets to handle. A game packet that the link of
      client `d` hands up is one that another client put on its own link, it has come through both links
      and the relay unchanged, and if that client made it of the entity packets `gs`, then `d` reads
      exactly these, in order, if it knows the sender by then, and drops the packet otherwise. */
  lemma EndToEndDelivery(w: World, d: Id, k: nat, gs: seq<GamePacket>)
    requires Reached(w) && d in w.downs && d !in w.rushed && Roomy(w.sys, d)
    requires k < |w.downs[d].rcv.got| && IsGame(w.downs[d].rcv.got[k].id)
    ensures var p, c := w.downs[d].rcv.got[k], Subject(w.downs[d].rcv.got[k]);
            && c != d && (exists j :: CameFrom(w, c, p, j))
            && (MadeOf(p, c, gs) ==> ReadsAt(w, d, k, p, c, gs))
  {
    var p := w.downs[d].rcv.got[k];
    GetsWhatWasRelayed(w, d, k);
    WasTaken(w.sys, d, p);
    CameThrough(w, Subject(p), p);
    if MadeOf(p, Subject(p), gs) {
      IsReadAsMade(w, d, k, p, gs);
    }
  }

  // ---------- a packet is relayed ----------

  lemma {:induction false} HistorySnoc(run: seq<World>, v: World)
    requires IsHistory(run) && CanBecome(run[|run| - 1], v)
    ensures IsHistory(run + [v])
  {
    var longer := run + [v];
    assert longer[..|run|] == run;
    assert longer[|run| - 1] == run[|run| - 1] && longer[|run|] == v;
  }

  lemma ReachedNext(w: World, m: Move, v: World)
    requires Reached(w) && Usual(w, m) && Moves(w, m, v)
    ensures Reached(v)
  {
    var run :| IsHistory(run) && run[|run| - 1] == w;
    assert CanBecome(w, v);
    HistorySnoc(run, v);
    assert (run + [v])[|run|] == v;
  }

  lemma ProcessMoves(w: World, v: World)
    requires Moves(w, Local(Process), v)
    ensures Enabled(w.sys, Process) && v.sys == Next(w.sys, Process)
  {
  }

  lemma RelayedLast(s: Sys, t: Sys, d: Id)
    requires Reachable(s) && Enabled(s, Process) && t == Next(s, Process)
    requires IsGame(s.inLog[s.done].packet.id) && d in s.peers && d in s.hub.open && d != s.inLog[s.done].from
    ensures d in t.peers && IsLast(t, d, s.inLog[s.done])
  {
    StillPeer(s, d);
    RelayedIsLast(s, t, d);
    SenderAt(s);
  }

  lemma OpenIsPeer(s: Sys, d: Id)
    requires Reachable(s) && d in s.hub.open
    ensures d in s.peers
  {
    RosterAt(s, d);
  }

  lemma StillPeer(s: Sys, d: Id)
    requires Reachable(s) && Enabled(s, Process) && d in s.peers
    ensures d in Next(s, Process).peers
  {
  }

  /** The server handles the game packet of entry `e`, and `d` is another open connection. */
  ghost predicate Relays(w: World, v: World, e: Entry, d: Id) {
    && w.sys.done < |w.sys.inLog| && e == w.sys.inLog[w.sys.done]
    && IsGame(e.packet.id) && d in w.sys.hub.open && d != e.from && d !in w.rushed
    && Reached(w) && Moves(w, Local(Process), v)
  }

  /** The packet of `e` is the last one on the channel of `d`. */
  ghost predicate IsLast(s: Sys, d: Id, e: Entry) {
    && d in s.hub.down && s.hub.down[d] != [] && s.hub.down[d][|s.hub.down[d]| - 1] == e.packet
    && Subject(e.packet) == e.from
  }

  lemma RelaysByProcess(w: World, v: World, e: Entry, d: Id)
    requires Relays(w, v, e, d)
    ensures Reachable(w.sys) && Enabled(w.sys, Process) && v.sys == Next(w.sys, Process) && d in w.sys.peers
  {
    ProcessMoves(w, v);
    RefinesProtocol(w, Local(Process));
    OpenIsPeer(w.sys, d);
  }

  lemma DownsOfPeers(w: World)
    requires Reached(w)
    ensures w.downs.Keys == w.sys.peers.Keys
  {
    ReachedOk(w);
  }

  lemma RelaysReach(w: World, v: World, e: Entry, d: Id)
    requires Relays(w, v, e, d)
    ensures Reached(v) && v.rushed == w.rushed && v.downs.Keys == w.downs.Keys
  {
    ReachedNext(w, Local(Process), v);
    RelaysByProcess(w, v, e, d);
    DownsOfPeers(w);
    DownsOfPeers(v);
    KeysKept(w.sys, Process);
  }

  /** Nobody is left out: when the server handles a game packet, the link to every other open connection is
      given it last. */
  lemma EveryOpenClientGetsIt(w: World, v: World, e: Entry, d: Id)
    requires Relays(w, v, e, d)
    ensures d in w.sys.peers && d in v.downs && IsLast(v.sys, d, e) && v.downs[d].snd.sends == v.sys.hub.down[d]
  {
    RelaysByProcess(w, v, e, d);
    RelayedLast(w.sys, v.sys, d);
    RelaysReach(w, v, e, d);
    ReachedOk(w);
    DownAt(v, d);
  }

  /** A registered client that has been told of everybody once will know the sender just if it is listed. */
  lemma KnowsSenderIfListed(w: World, v: World, e: Entry, d: Id)
    requires Relays(w, v, e, d)
    requires d in w.sys.peers && d in w.sys.hub.clients && !w.sys.peers[d].spoiled
    ensures d in v.sys.hub.down && v.sys.hub.down[d] != []
    ensures e.from in ViewAt(v.sys, d, |v.sys.hub.down[d]| - 1).roster <==> e.from in w.sys.hub.clients
  {
    RelaysByProcess(w, v, e, d);
    KnownExactlyIfListed(w.sys, v.sys, d);
  }
}
