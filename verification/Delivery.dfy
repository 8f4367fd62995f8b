/** Nothing gets stuck: from every state in which both ends are open, all that was sent can be handed up. */
module Delivery {
  import opened Words
  import opened Lists
  import opened Packets
  import opened Transport
  import opened Framing

  // ---------- runs, one event at a time ----------

  lemma {:induction false} OrderlySnoc(run: seq<Net>, m: Net)
    requires IsOrderlyRun(run) && OrderlyFollows(run[|run| - 1], m)
    ensures IsOrderlyRun(run + [m])
  {
    var longer := run + [m];
    assert longer[..|run|] == run;
    assert longer[|run| - 1] == run[|run| - 1] && longer[|run|] == m;
  }

  lemma OrderlyNext(n: Net, e: Event)
    requires OrderlyReachable(n) && Enabled(n, e) && !Hasty(n, e)
    ensures OrderlyReachable(Next(n, e))
  {
    var run :| IsOrderlyRun(run) && run[|run| - 1] == n;
    var m := Next(n, e);
    assert OrderlyFollows(n, m);
    OrderlySnoc(run, m);
    assert (run + [m])[|run|] == m;
  }

  lemma {:induction false} Snoc(run: seq<Net>, m: Net)
    requires IsRun(run) && Follows(run[|run| - 1], m)
    ensures IsRun(run + [m])
  {
    var longer := run + [m];
    assert longer[..|run|] == run;
    assert longer[|run| - 1] == run[|run| - 1] && longer[|run|] == m;
  }

  lemma ReachableNext(n: Net, e: Event)
    requires Reachable(n) && Enabled(n, e)
    ensures Reachable(Next(n, e))
  {
    var run :| IsRun(run) && run[|run| - 1] == n;
    var m := Next(n, e);
    assert Follows(n, m);
    Snoc(run, m);
    assert (run + [m])[|run|] == m;
  }

  lemma {:induction false} PlayReaches(n: Net, es: seq<Event>)
    requires Reachable(n) && Play(n, es).Some?
    ensures Reachable(Play(n, es).value)
    decreases |es|
  {
    if es != [] {
      ReachableNext(n, es[0]);
      PlayReaches(Next(n, es[0]), es[1..]);
    }
  }

  lemma {:induction false} PlayOn(n: Net, es: seq<Event>, fs: seq<Event>)
    requires Play(n, es).Some?
    ensures Play(n, es + fs) == Play(Play(n, es).value, fs)
    decreases |es|
  {
    if es == [] {
      assert es + fs == fs;
    } else {
      assert (es + fs)[1..] == es[1..] + fs;
      PlayOn(Next(n, es[0]), es[1..], fs);
    }
  }

  lemma {:induction false} PlayFirst(n: Net, e: Event, es: seq<Event>)
    requires Enabled(n, e)
    ensures Play(n, [e] + es) == Play(Next(n, e), es)
  {
    assert ([e] + es)[1..] == es;
  }

  lemma {:induction false} PlayLast(n: Net, e: Event)
    requires Enabled(n, e)
    ensures Play(n, [e]) == Some(Next(n, e))
  {
    assert [e][1..] == [];
    assert Play(Next(n, e), []) == Some(Next(n, e));
  }

  lemma {:induction false} PlayTwo(n: Net, e: Event, f: Event)
    requires Enabled(n, e) && Enabled(Next(n, e), f)
    ensures Play(n, [e] + [f]) == Some(Next(Next(n, e), f))
  {
    PlayLast(Next(n, e), f);
    PlayFirst(n, e, [f]);
  }

  /** Only `Send` adds to what is to be sent. */
  lemma MoveSendsNothing(n: Net, e: Event)
    requires Enabled(n, e) && !e.Send?
    ensures Next(n, e).hello == n.hello && Next(n, e).snd.sends == n.snd.sends
  {
  }

  /** What has been handed up stays so. */
  lemma MoveTakesNothingBack(n: Net, e: Event)
    requires Enabled(n, e)
    ensures n.rcv.got <= Next(n, e).rcv.got
    ensures n.rcv.challenge.Some? ==> Next(n, e).rcv.challenge == n.rcv.challenge
  {
  }

  // ---------- when the handshake bytes are out ----------

  lemma WithoutStaysOut(s: Sender, i: nat)
    requires PumpOk(s) && i < |s.writes| && GreetingLeft(s.writes) == []
    ensures GreetingLeft(WithoutWrite(s, i).writes) == []
  {
  }

  lemma GreetingStaysOut(n: Net, e: Event)
    requires PumpOk(n.snd) && Enabled(n, e) && GreetingLeft(n.snd.writes) == []
    ensures GreetingLeft(Next(n, e).snd.writes) == []
  {
    if e.WriteFails? {
      WithoutStaysOut(n.snd, e.i);
    } else if e.WriteDone? {
      if n.snd.writes[e.i].Greet? {
        GreetingThrough(n.snd, e.i);
      } else {
        PumpThrough(n.snd, e.i);
      }
    }
  }

  lemma OnlyGreeting(s: Sender)
    requires PumpOk(s) && Waits(s) && GreetingLeft(s.writes) != []
    ensures s.queue == [] && s.finished == [] && s.sends == s.posted && s.writes == [Greet(GreetingLeft(s.writes))]
  {
  }

  /** A socket that has been closed leaves no handshake write outstanding. */
  lemma ClosedStep(n: Net, e: Event)
    requires PumpOk(n.snd) && Orderly(n) && Enabled(n, e) && (n.snd.open || GreetingLeft(n.snd.writes) == [])
    ensures Next(n, e).snd.open || GreetingLeft(Next(n, e).snd.writes) == []
  {
    if GreetingLeft(n.snd.writes) == [] {
      GreetingStaysOut(n, e);
    } else if e.WriteFails? {
      OnlyGreeting(n.snd);
    }
  }

  lemma {:induction false} ClosedRun(run: seq<Net>)
    requires IsOrderlyRun(run)
    ensures var n := run[|run| - 1]; n.snd.open || GreetingLeft(n.snd.writes) == []
  {
    var last := |run| - 1;
    if last > 0 {
      var n := run[last - 1];
      ClosedRun(run[..last]);
      OrderlyRunOk(run[..last]);
      RunOk(run[..last]);
      var e :| Enabled(n, e) && !Hasty(n, e) && run[last] == Next(n, e);
      ClosedStep(n, e);
    }
  }

  lemma NotStarted(n: Net)
    requires NetOk(n) && Orderly(n) && n.snd.open && GreetingLeft(n.snd.writes) != []
    ensures |n.out| < GREETING_SIZE
  {
    NothingYet(n.snd);
  }

  /** Whoever has read the handshake bytes has them all. */
  lemma ReadMeansOut(n: Net)
    requires OrderlyReachable(n) && n.rcv.challenge.Some?
    ensures GreetingLeft(n.snd.writes) == []
  {
    var run :| IsOrderlyRun(run) && run[|run| - 1] == n;
    ClosedRun(run);
    OrderlyReachableOk(n);
    assert |n.out| >= |Read(n.rcv)| >= GREETING_SIZE;
    if GreetingLeft(n.snd.writes) != [] {
      NotStarted(n);
    }
  }

  // ---------- what was sent can be handed up ----------

  /** A step of the link by itself that is not a failure, and does not run a lambda too early. */
  predicate Quiet(n: Net, e: Event) {
    Enabled(n, e) && !Hasty(n, e) && !e.Send? && !e.WriteFails? && !e.ReadFails?
  }

  ghost predicate Quietly(n: Net, es: seq<Event>)
    decreases |es|
  {
    es != [] ==> Quiet(n, es[0]) && Quietly(Next(n, es[0]), es[1..])
  }

  /** Some continuation of such steps hands up every message sent. */
  ghost predicate CanDeliver(n: Net) {
    exists es :: Delivers(n, es)
  }

  ghost predicate Delivers(n: Net, es: seq<Event>) {
    Quietly(n, es) && Play(n, es).Some? && Delivered(n, Play(n, es).value)
  }

  /** `m` has handed up all that `n` was asked to send, and nothing else. */
  ghost predicate Delivered(n: Net, m: Net) {
    OrderlyReachable(m) && m.snd.open && m.rcv.open && m.hello == n.hello && m.rcv.challenge.Some?
    && m.snd.sends == n.snd.sends && |m.rcv.got| == |m.snd.sends|
  }

  lemma {:induction false} QuietlyFirst(n: Net, e: Event, es: seq<Event>)
    requires Quiet(n, e) && Quietly(Next(n, e), es)
    ensures Quietly(n, [e] + es)
  {
    assert ([e] + es)[1..] == es;
  }

  lemma OneMore(n: Net, e: Event)
    requires Quiet(n, e) && CanDeliver(Next(n, e))
    ensures CanDeliver(n)
  {
    var es :| Delivers(Next(n, e), es);
    MoveSendsNothing(n, e);
    PlayFirst(n, e, es);
    QuietlyFirst(n, e, es);
    assert Delivers(n, [e] + es);
  }

  // ---------- the reader ----------

  /** Nothing is left to send. */
  ghost predicate Idle(n: Net) {
    OrderlyReachable(n) && n.snd.open && n.rcv.open
    && n.snd.writes == [] && n.snd.queue == [] && n.snd.posted == []
  }

  lemma IdleBytes(n: Net)
    requires Idle(n)
    ensures n.out == n.hello + Frames(n.snd.sends)
  {
    OrderlyReachableOk(n);
    assert n.snd.finished == n.snd.sends && Written(n.snd.writes) == [] && Started(n.hello, []) == n.hello;
  }

  lemma {:induction false} FrameLengths(ps: seq<Packet>, k: nat)
    requires k < |ps|
    ensures |Frames(ps)| >= |Frames(ps[..k])| + HEADER_SIZE + |Payload(ps[k])|
  {
    assert ps == ps[..k] + ps[k..];
    FramesAppend(ps[..k], ps[k..]);
    FramesFirst(ps[k..]);
  }

  lemma HeaderTells(p: Packet, q: Packet)
    requires HeaderBytes(p) == HeaderBytes(q) && Agrees(q)
    ensures p.size == |Payload(q)|
  {
    HeaderDecides(p, q);
  }

  /** The bytes that the next read waits for have arrived. */
  lemma NextReadIsThere(n: Net)
    requires Idle(n) && n.wire == []
    requires n.rcv.challenge.Some? ==> |n.rcv.got| < |n.snd.sends|
    ensures n.rcv.challenge.None? ==> Enabled(n, ReadGreeting)
    ensures n.rcv.challenge.Some? ==> Enabled(n, ReadDone)
  {
    OrderlyReachableOk(n);
    FramingIsCorrect(n);
    IdleBytes(n);
    var r, sends := n.rcv, n.snd.sends;
    assert |n.out| == |Read(r)| + |r.buf|;
    if r.challenge.Some? {
      FaithfulFrames(n);
      FrameLengths(sends, |r.got|);
      if r.body {
        assert sends[|r.got|] in sends;
        HeaderTells(r.temp, sends[|r.got|]);
      }
    }
  }

  lemma ReadsOn(n: Net, e: Event)
    requires Idle(n) && Enabled(n, e) && (e == ReadGreeting || e == ReadDone || e.Arrive?)
    ensures Idle(Next(n, e)) && Next(n, e).snd == n.snd && Next(n, e).hello == n.hello
  {
    OrderlyNext(n, e);
  }

  lemma GotAtMost(n: Net)
    requires OrderlyReachable(n)
    ensures |n.rcv.got| <= |n.snd.sends| && (n.rcv.challenge.None? ==> n.rcv.got == [])
  {
    OrderlyReachableOk(n);
    FramingIsCorrect(n);
  }

  lemma {:induction false} TheRestIsRead(n: Net)
    requires Idle(n) && n.wire == [] && n.rcv.challenge.Some?
    requires |n.rcv.got| <= |n.snd.sends|
    ensures CanDeliver(n)
    decreases |n.snd.sends| - |n.rcv.got|, if n.rcv.body then 0 else 1
  {
    if |n.rcv.got| == |n.snd.sends| {
      assert Delivers(n, []);
    } else {
      NextReadIsThere(n);
      var m := Next(n, ReadDone);
      ReadsOn(n, ReadDone);
      GotAtMost(m);
      TheRestIsRead(m);
      OneMore(n, ReadDone);
    }
  }

  lemma AllIsRead(n: Net)
    requires Idle(n)
    ensures CanDeliver(n)
  {
    var arrive := Arrive(|n.wire|);
    var m := Next(n, arrive);
    ReadsOn(n, arrive);
    GotAtMost(m);
    if m.rcv.challenge.None? {
      NextReadIsThere(m);
      var l := Next(m, ReadGreeting);
      ReadsOn(m, ReadGreeting);
      GotAtMost(l);
      TheRestIsRead(l);
      OneMore(m, ReadGreeting);
    } else {
      TheRestIsRead(m);
    }
    OneMore(n, arrive);
  }

  // ---------- the pump ----------

  /** How many steps the outstanding write is away from its last completion. */
  function Stage(ws: seq<Write>): nat {
    if ws == [] then 0 else (if ws[0].HeaderOf? then 2 else 0) + if ws[0].left != [] then 1 else 0
  }

  lemma OneWrite(s: Sender)
    requires PumpOk(s) && s.open && (s.writes == [] || !s.writes[0].Greet?)
    ensures if s.queue == [] then s.writes == [] else |s.writes| == 1
  {
  }

  lemma EmitsAll(n: Net, i: nat)
    requires n.snd.open && i < |n.snd.writes|
    ensures Enabled(n, Emit(i, |n.snd.writes[i].left|))
    ensures var w := n.snd.writes[i];
            Next(n, Emit(i, |w.left|)) == n.(snd := n.snd.(writes := n.snd.writes[i := w.(left := [])]),
                                             out := n.out + w.left, wire := n.wire + w.left)
  {
    var left := n.snd.writes[i].left;
    assert left[..|left|] == left && left[|left|..] == [];
  }

  /** What the sender does next by itself. */
  function NextSend(s: Sender): Event {
    if s.queue == [] || s.writes == [] then RunPost
    else if s.writes[0].left != [] then Emit(0, |s.writes[0].left|)
    else WriteDone(0)
  }

  ghost predicate Closer(t: Sender, s: Sender) {
    || |t.posted| < |s.posted|
    || (|t.posted| == |s.posted|
        && (|t.queue| < |s.queue| || (|t.queue| == |s.queue| && Stage(t.writes) < Stage(s.writes))))
  }

  /** The sender can make this step, and comes closer to being idle. */
  ghost predicate Works(n: Net, e: Event) {
    && Enabled(n, e) && !Hasty(n, e) && Next(n, e).hello == n.hello && Next(n, e).rcv == n.rcv
    && var t := Next(n, e).snd;
       t.open && t.sends == n.snd.sends && (t.writes == [] || !t.writes[0].Greet?) && Closer(t, n.snd)
  }

  lemma RunWorks(n: Net)
    requires n.snd.open && n.snd.writes == [] && n.snd.posted != []
    ensures Works(n, RunPost)
  {
  }

  lemma EmitWorks(n: Net)
    requires n.snd.open && |n.snd.writes| == 1 && !n.snd.writes[0].Greet? && n.snd.writes[0].left != []
    ensures Works(n, Emit(0, |n.snd.writes[0].left|))
  {
    EmitsAll(n, 0);
  }

  lemma HeaderDoneIsCloser(s: Sender, t: Sender)
    requires |s.writes| == 1 && s.writes[0].HeaderOf? && s.queue != [] && s.queue[0].body != []
    requires t == WriteBody(s.(writes := []))
    ensures t.open == s.open && t.sends == s.sends && !t.writes[0].Greet? && Closer(t, s)
  {
    assert t.writes == [BodyOf(s.queue[0], s.queue[0].body)];
  }

  lemma PopIsCloser(s: Sender, t: Sender)
    requires s.queue != [] && t == PopSent(s.(writes := []))
    ensures t.open == s.open && t.sends == s.sends && (t.writes == [] || !t.writes[0].Greet?) && Closer(t, s)
  {
  }

  lemma DoneIsCloser(s: Sender, t: Sender)
    requires |s.writes| == 1 && !s.writes[0].Greet? && s.queue != [] && t == Completed(s, 0)
    ensures t.open == s.open && t.sends == s.sends && (t.writes == [] || !t.writes[0].Greet?) && Closer(t, s)
  {
    assert WithoutWrite(s, 0) == s.(writes := []);
    if s.writes[0].HeaderOf? && s.queue[0].body != [] {
      HeaderDoneIsCloser(s, t);
    } else {
      PopIsCloser(s, t);
    }
  }

  lemma DoneWorks(n: Net)
    requires n.snd.open && |n.snd.writes| == 1 && !n.snd.writes[0].Greet?
    requires n.snd.queue != [] && n.snd.writes[0].left == []
    ensures Works(n, WriteDone(0))
  {
    DoneIsCloser(n.snd, Completed(n.snd, 0));
  }

  /** What it does next works. */
  lemma NextSendWorks(n: Net)
    requires PumpOk(n.snd) && n.snd.open && (n.snd.writes == [] || !n.snd.writes[0].Greet?)
    requires n.snd.queue != [] || n.snd.posted != []
    ensures Works(n, NextSend(n.snd))
  {
    OneWrite(n.snd);
    match NextSend(n.snd)
    case RunPost => RunWorks(n);
    case Emit(_, _) => EmitWorks(n);
    case _ => DoneWorks(n);
  }

  lemma {:induction false} AllIsPumped(n: Net)
    requires OrderlyReachable(n) && n.snd.open && n.rcv.open && (n.snd.writes == [] || !n.snd.writes[0].Greet?)
    ensures CanDeliver(n)
    decreases |n.snd.posted|, |n.snd.queue|, Stage(n.snd.writes)
  {
    OrderlyReachableOk(n);
    if n.snd.queue == [] && n.snd.posted == [] {
      OneWrite(n.snd);
      AllIsRead(n);
    } else {
      var e := NextSend(n.snd);
      NextSendWorks(n);
      OrderlyNext(n, e);
      AllIsPumped(Next(n, e));
      OneMore(n, e);
    }
  }

  /** No state is stuck: whatever has happened so far, as long as both ends are open every message that was
      sent can still be handed up. */
  lemma NothingGetsStuck(n: Net)
    requires OrderlyReachable(n) && n.snd.open && n.rcv.open
    ensures CanDeliver(n)
  {
    OrderlyReachableOk(n);
    if n.snd.writes == [] || !n.snd.writes[0].Greet? {
      AllIsPumped(n);
    } else {
      EmitsAll(n, 0);
      var emit, done := Emit(0, |n.snd.writes[0].left|), WriteDone(0);
      var m := Next(n, emit);
      OrderlyNext(n, emit);
      OrderlyNext(m, done);
      AllIsPumped(Next(m, done));
      OneMore(m, done);
      OneMore(n, emit);
    }
  }

  // ---------- any list of messages ----------

  /** A link on which these messages have been posted and nothing has left. */
  function Posted(hello: seq<Byte>, ps: seq<Packet>): Net {
    Net(hello, Sender(true, ps, [], [Greet(hello)], ps, []), [], [], Receiver(true, None, [], NewPacket(0), false, []))
  }

  lemma PostedSnoc(hello: seq<Byte>, ps: seq<Packet>, p: Packet)
    requires Agrees(p)
    ensures OrderlyFollows(Posted(hello, ps), Posted(hello, ps + [p]))
  {
    assert Enabled(Posted(hello, ps), Send(p)) && !Hasty(Posted(hello, ps), Send(p));
    assert Posted(hello, ps + [p]) == Next(Posted(hello, ps), Send(p));
  }

  lemma {:induction false} PostingRun(hello: seq<Byte>, ps: seq<Packet>) returns (run: seq<Net>)
    requires |hello| == GREETING_SIZE && forall p :: p in ps ==> Agrees(p)
    ensures IsOrderlyRun(run) && run[|run| - 1] == Posted(hello, ps)
  {
    if ps == [] {
      run := [Posted(hello, [])];
    } else {
      var rest, p := ps[..|ps| - 1], ps[|ps| - 1];
      run := PostingRun(hello, rest);
      PostedSnoc(hello, rest, p);
      assert rest + [p] == ps;
      OrderlySnoc(run, Posted(hello, ps));
      run := run + [Posted(hello, ps)];
    }
  }

  lemma {:induction false} AnyListIsPosted(hello: seq<Byte>, ps: seq<Packet>)
    requires |hello| == GREETING_SIZE && forall p :: p in ps ==> Agrees(p)
    ensures OrderlyReachable(Posted(hello, ps))
  {
    var run := PostingRun(hello, ps);
  }

  /** Every list of honest messages is handed up in some run, under any challenge. */
  lemma AnyListIsDelivered(hello: seq<Byte>, ps: seq<Packet>)
    requires |hello| == GREETING_SIZE && forall p :: p in ps ==> Agrees(p)
    ensures exists m :: Delivered(Posted(hello, ps), m)
  {
    AnyListIsPosted(hello, ps);
    NothingGetsStuck(Posted(hello, ps));
    var es :| Delivers(Posted(hello, ps), es);
    assert Delivered(Posted(hello, ps), Play(Posted(hello, ps), es).value);
  }

  /** The second of two messages, if it has no body, arrives with the body of the first. */
  lemma SecondIsStale(m: Net, p: Packet, q: Packet)
    requires OrderlyReachable(m) && m.snd.sends == [p, q] && |m.rcv.got| == 2 && p.size > 0 && q.size == 0
    ensures m.rcv.got[1] == q.(body := p.body)
  {
    OrderlyReachableOk(m);
    FramingIsCorrect(m);
    var got := m.rcv.got;
    assert ReceivedAs(p, got[0]) && ReceivedAs(q, got[1]);
    assert Shaped(got, 1) && got[..1] == [got[0]];
  }

  /** A stale body in fact: an AddClient that is broadcast to an unvalidated connection is read there before
      Accepted, which then arrives with the four bytes of that id as its body. */
  lemma AcceptedArrivesWithABody(hello: seq<Byte>, id: Word)
    requires |hello| == GREETING_SIZE
    ensures var sent := [IdPacket(GAME_ADD_CLIENT, id), NewPacket(CLIENT_ACCEPTED)];
            exists m :: Delivered(Posted(hello, sent), m) && m.rcv.got[1] == Packet(CLIENT_ACCEPTED, 0, Encode(id))
  {
    var add, accepted := IdPacket(GAME_ADD_CLIENT, id), NewPacket(CLIENT_ACCEPTED);
    IdPacketCarries(GAME_ADD_CLIENT, id);
    AnyListIsDelivered(hello, [add, accepted]);
    var m :| Delivered(Posted(hello, [add, accepted]), m);
    SecondIsStale(m, add, accepted);
    assert [] + Encode(id) == Encode(id);
  }
}
