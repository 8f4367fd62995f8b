/** What the pumps of module Transport keep: at most one write of the pump, no byte lost or invented, and
    exactly when the receiver gets the messages that were sent. */
module Framing {
  import opened Words
  import opened Packets
  import opened Transport

  // ---------- the write pump ----------

  /** How many writes of the pump are outstanding. */
  function PumpWrites(ws: seq<Write>): nat {
    if ws == [] then 0 else PumpWrites(ws[..|ws| - 1]) + if ws[|ws| - 1].Greet? then 0 else 1
  }

  /** The newest outstanding write is one of the pump. */
  predicate Pumping(ws: seq<Write>) {
    ws != [] && !ws[|ws| - 1].Greet?
  }

  function Current(ws: seq<Write>): Write
    requires Pumping(ws)
  {
    ws[|ws| - 1]
  }

  /** The write is of this message, and has its last bytes left. */
  ghost predicate Writes(w: Write, front: Packet) {
    match w
    case Greet(_) => false
    case HeaderOf(msg, left) =>
      msg == front && |left| <= HEADER_SIZE && left == HeaderBytes(msg)[HEADER_SIZE - |left|..]
    case BodyOf(msg, left) =>
      msg == front && msg.body != [] && |left| <= |msg.body| && left == msg.body[|msg.body| - |left|..]
  }

  ghost predicate PumpOk(s: Sender) {
    && |s.writes| <= 2
    && (forall i :: 0 < i < |s.writes| ==> !s.writes[i].Greet?) && (|s.writes| == 2 ==> s.writes[0].Greet?)
    && (Pumping(s.writes) ==> s.queue != [] && Writes(Current(s.writes), s.queue[0]))
    && (s.open && s.queue != [] ==> Pumping(s.writes))
    && s.finished + s.queue + s.posted == s.sends
    && (forall p :: p in s.sends ==> Agrees(p))
  }

  lemma PostKeeps(s: Sender, p: Packet)
    requires PumpOk(s) && Agrees(p)
    ensures PumpOk(PostSend(s, p))
  {
    assert s.finished + s.queue + (s.posted + [p]) == s.finished + s.queue + s.posted + [p];
  }

  lemma RunKeeps(s: Sender)
    requires PumpOk(s) && s.posted != []
    ensures PumpOk(RunPosted(s))
  {
    assert s.posted == [s.posted[0]] + s.posted[1..];
    assert s.finished + (s.queue + [s.posted[0]]) + s.posted[1..] == s.finished + s.queue + s.posted;
    assert (s.queue + [s.posted[0]])[0] == if s.queue == [] then s.posted[0] else s.queue[0];
  }

  lemma PutOutKeeps(s: Sender, i: nat, k: nat)
    requires PumpOk(s) && i < |s.writes| && k <= |s.writes[i].left|
    ensures PumpOk(PutOut(s, i, k))
  {
  }

  lemma PopKeeps(s: Sender)
    requires PumpOk(s.(open := false)) && s.queue != [] && !Pumping(s.writes)
    ensures PumpOk(PopSent(s))
  {
    assert s.queue == [s.queue[0]] + s.queue[1..];
    assert (s.finished + [s.queue[0]]) + s.queue[1..] + s.posted == s.finished + s.queue + s.posted;
  }

  /** Without its pump write, a sender has at most the handshake write left. */
  lemma WithoutKeeps(s: Sender, i: nat)
    requires PumpOk(s) && i < |s.writes|
    ensures PumpOk(WithoutWrite(s, i).(open := false))
    ensures !s.writes[i].Greet? ==> !Pumping(WithoutWrite(s, i).writes) && i == |s.writes| - 1
    ensures s.writes[i].Greet? ==> PumpOk(WithoutWrite(s, i))
  {
  }

  lemma CompletedKeeps(s: Sender, i: nat)
    requires PumpOk(s) && i < |s.writes| && (s.writes[i].Greet? || s.queue != [])
    ensures PumpOk(Completed(s, i))
  {
    WithoutKeeps(s, i);
    var t := WithoutWrite(s, i);
    if !s.writes[i].Greet? {
      if s.writes[i].BodyOf? || s.queue[0].body == [] {
        PopKeeps(t);
      }
    }
  }

  lemma PumpStep(n: Net, e: Event)
    requires PumpOk(n.snd) && Enabled(n, e)
    ensures PumpOk(Next(n, e).snd)
  {
    match e
    case Send(p) => PostKeeps(n.snd, p);
    case RunPost => RunKeeps(n.snd);
    case Emit(i, k) => PutOutKeeps(n.snd, i, k);
    case WriteDone(i) => CompletedKeeps(n.snd, i);
    case WriteFails(i) => WithoutKeeps(n.snd, i);
    case _ =>
  }

  // ---------- frames ----------

  lemma Regroup(a: seq<Byte>, b: seq<Byte>, c: seq<Byte>)
    ensures a + b + c == a + (b + c)
  {
  }

  lemma {:induction false} FramesAppend(ps: seq<Packet>, qs: seq<Packet>)
    ensures Frames(ps + qs) == Frames(ps) + Frames(qs)
  {
    if qs == [] {
      assert ps + qs == ps;
    } else {
      assert (ps + qs)[..|ps + qs| - 1] == ps + qs[..|qs| - 1];
      FramesAppend(ps, qs[..|qs| - 1]);
      Regroup(Frames(ps), Frames(qs[..|qs| - 1]), Frame(qs[|qs| - 1]));
    }
  }

  lemma FramesOne(p: Packet)
    ensures Frames([p]) == Frame(p)
  {
    assert [p][..0] == [];
  }

  lemma {:induction false} FramesFirst(ps: seq<Packet>)
    requires ps != []
    ensures Frames(ps) == Frame(ps[0]) + Frames(ps[1..])
  {
    assert ps == [ps[0]] + ps[1..];
    FramesAppend([ps[0]], ps[1..]);
    FramesOne(ps[0]);
  }

  lemma HeaderDecides(p: Packet, q: Packet)
    ensures HeaderBytes(p) == HeaderBytes(q) <==> p.id == q.id && p.size == q.size
  {
    if HeaderBytes(p) == HeaderBytes(q) {
      assert HeaderBytes(p)[..4] == Encode(p.id) && HeaderBytes(p)[4..] == Encode(p.size);
      assert HeaderBytes(q)[..4] == Encode(q.id) && HeaderBytes(q)[4..] == Encode(q.size);
      DecodeEncode(p.id);
      DecodeEncode(q.id);
      DecodeEncode(p.size);
      DecodeEncode(q.size);
    }
  }

  /** A header as it is read from the stream. */
  lemma HeaderRoundTrip(bytes: seq<Byte>, body: seq<Byte>)
    requires |bytes| == HEADER_SIZE
    ensures HeaderBytes(Packet(Decode(bytes[..4]), Decode(bytes[4..]), body)) == bytes
  {
    EncodeDecode(bytes[..4]);
    EncodeDecode(bytes[4..]);
    assert bytes[..4] + bytes[4..] == bytes;
  }

  // ---------- the receiver, whatever the bytes ----------

  /** The body of the last packet that had one. */
  function LastBody(ps: seq<Packet>): seq<Byte> {
    if ps == [] then []
    else if ps[|ps| - 1].size > 0 then ps[|ps| - 1].body
    else LastBody(ps[..|ps| - 1])
  }

  /** A message handed up has the body it announces, or else the last body there was. */
  ghost predicate Shaped(got: seq<Packet>, i: nat)
    requires i < |got|
  {
    if got[i].size > 0 then |got[i].body| == got[i].size else got[i].body == LastBody(got[..i])
  }

  ghost predicate ReaderOk(r: Receiver) {
    && (r.challenge.None? ==> r.got == [] && !r.body)
    && (r.challenge.Some? ==> |r.challenge.value| == GREETING_SIZE)
    && (forall i :: 0 <= i < |r.got| ==> Shaped(r.got, i))
    && (if r.body then 0 < r.temp.size == |r.temp.body| else r.temp.body == LastBody(r.got))
  }

  /** All bytes the receiver has read, as its state tells them. */
  function Read(r: Receiver): seq<Byte> {
    if r.challenge.None? then []
    else r.challenge.value + (Frames(r.got) + if r.body then HeaderBytes(r.temp) else [])
  }

  /** Everything that ever left has been read, has arrived or is in flight. */
  ghost predicate NothingLost(n: Net) {
    n.out == Read(n.rcv) + (n.rcv.buf + n.wire)
  }

  lemma HandUpKeeps(r: Receiver)
    requires forall i :: 0 <= i < |r.got| ==> Shaped(r.got, i)
    requires if r.temp.size > 0 then |r.temp.body| == r.temp.size else r.temp.body == LastBody(r.got)
    requires r.challenge.Some? && |r.challenge.value| == GREETING_SIZE
    ensures ReaderOk(HandUp(r))
    ensures Read(HandUp(r)) == r.challenge.value + (Frames(r.got) + Frame(r.temp))
  {
    var got := HandUp(r).got;
    assert got[..|r.got|] == r.got;
    forall i | 0 <= i < |got|
      ensures Shaped(got, i)
    {
      assert i < |r.got| ==> Shaped(r.got, i) && got[..i] == r.got[..i];
    }
    assert Frames(got) + [] == Frames(got);
  }

  lemma HeaderReadKeeps(r: Receiver)
    requires ReaderOk(r) && r.challenge.Some? && !r.body && HEADER_SIZE <= |r.buf|
    ensures ReaderOk(HeaderRead(r)) && HeaderRead(r).buf == r.buf[HEADER_SIZE..]
    ensures Read(HeaderRead(r)) == Read(r) + r.buf[..HEADER_SIZE]
  {
    var bytes := r.buf[..HEADER_SIZE];
    assert bytes[..4] == r.buf[..4] && bytes[4..] == r.buf[4..8];
    var temp := Packet(Decode(bytes[..4]), Decode(bytes[4..]), r.temp.body);
    HeaderRoundTrip(bytes, r.temp.body);
    assert Read(r) + bytes == r.challenge.value + (Frames(r.got) + bytes);
    if temp.size > 0 {
      assert HeaderBytes(temp.(body := Resized(temp.body, temp.size))) == bytes;
    } else {
      assert Frame(temp) == bytes;
      HandUpKeeps(r.(buf := r.buf[HEADER_SIZE..], temp := temp));
    }
  }

  lemma BodyReadKeeps(r: Receiver)
    requires ReaderOk(r) && r.challenge.Some? && r.body && |r.temp.body| <= |r.buf|
    ensures ReaderOk(BodyRead(r)) && BodyRead(r).buf == r.buf[|r.temp.body|..]
    ensures Read(BodyRead(r)) == Read(r) + r.buf[..|r.temp.body|]
  {
    var bytes := r.buf[..|r.temp.body|];
    var temp := r.temp.(body := bytes);
    HandUpKeeps(r.(buf := r.buf[|bytes|..], temp := temp));
    assert HeaderBytes(temp) == HeaderBytes(r.temp);
    assert r.challenge.value + (Frames(r.got) + HeaderBytes(r.temp)) + bytes
        == r.challenge.value + (Frames(r.got) + (HeaderBytes(r.temp) + bytes));
  }

  lemma ReadMoves(read: seq<Byte>, buf: seq<Byte>, wire: seq<Byte>, k: nat)
    requires k <= |buf|
    ensures read + (buf + wire) == (read + buf[..k]) + (buf[k..] + wire)
  {
    assert buf == buf[..k] + buf[k..];
  }

  lemma ArriveMoves(read: seq<Byte>, buf: seq<Byte>, wire: seq<Byte>, k: nat)
    requires k <= |wire|
    ensures read + (buf + wire) == read + ((buf + wire[..k]) + wire[k..])
  {
    assert wire == wire[..k] + wire[k..];
  }

  lemma EmitMoves(read: seq<Byte>, buf: seq<Byte>, wire: seq<Byte>, bytes: seq<Byte>)
    ensures read + (buf + wire) + bytes == read + (buf + (wire + bytes))
  {
  }

  lemma ReaderStep(n: Net, e: Event)
    requires ReaderOk(n.rcv) && NothingLost(n) && Enabled(n, e)
    ensures ReaderOk(Next(n, e).rcv) && NothingLost(Next(n, e))
  {
    match e
    case Emit(i, k) => EmitMoves(Read(n.rcv), n.rcv.buf, n.wire, n.snd.writes[i].left[..k]);
    case Arrive(k) => ArriveMoves(Read(n.rcv), n.rcv.buf, n.wire, k);
    case ReadGreeting =>
      ReadMoves([], n.rcv.buf, n.wire, GREETING_SIZE);
      assert n.rcv.buf[..GREETING_SIZE] + (Frames([]) + []) == [] + n.rcv.buf[..GREETING_SIZE];
    case ReadDone =>
      if n.rcv.body {
        BodyReadKeeps(n.rcv);
        ReadMoves(Read(n.rcv), n.rcv.buf, n.wire, |n.rcv.temp.body|);
      } else {
        HeaderReadKeeps(n.rcv);
        ReadMoves(Read(n.rcv), n.rcv.buf, n.wire, HEADER_SIZE);
      }
    case _ =>
  }

  // ---------- every reachable state ----------

  ghost predicate NetOk(n: Net) {
    && |n.hello| == GREETING_SIZE
    && PumpOk(n.snd) && ReaderOk(n.rcv) && NothingLost(n)
    && GreetingOk(n.hello, n.snd)
  }

  /** The handshake bytes still to leave are the last ones. */
  ghost predicate GreetingOk(hello: seq<Byte>, s: Sender) {
    |GreetingLeft(s.writes)| <= |hello| && GreetingLeft(s.writes) == hello[|hello| - |GreetingLeft(s.writes)|..]
  }

  /** A write of the pump that joins the others hides no handshake bytes. */
  lemma GreetingBehind(ws: seq<Write>, w: Write)
    requires !w.Greet?
    ensures GreetingLeft(ws + [w]) == GreetingLeft(ws)
  {
    if ws == [] {
      assert ws + [w] == [w];
    } else {
      assert (ws + [w])[0] == ws[0];
    }
  }

  /** Whatever the pump does next, it only adds such a write. */
  lemma PumpAdds(s: Sender)
    requires s.queue != []
    ensures GreetingLeft(HeaderWritten(s).writes) == GreetingLeft(s.writes) == GreetingLeft(BodyWritten(s).writes)
  {
    GreetingBehind(s.writes, BodyOf(s.queue[0], s.queue[0].body));
    if |s.queue| > 1 {
      GreetingBehind(s.writes, HeaderOf(s.queue[1], HeaderBytes(s.queue[1])));
    }
  }

  lemma WithoutPump(s: Sender, i: nat)
    requires PumpOk(s) && i < |s.writes|
    ensures GreetingLeft(WithoutWrite(s, i).writes) == if s.writes[i].Greet? then [] else GreetingLeft(s.writes)
  {
    if s.writes[i].Greet? {
      assert i == 0;
    } else {
      assert s.writes == WithoutWrite(s, i).writes + [s.writes[i]];
      GreetingBehind(WithoutWrite(s, i).writes, s.writes[i]);
    }
  }

  lemma PumpThrough(s: Sender, i: nat)
    requires PumpOk(s) && i < |s.writes| && !s.writes[i].Greet? && s.queue != []
    ensures GreetingLeft(Completed(s, i).writes) == GreetingLeft(s.writes)
  {
    WithoutPump(s, i);
    PumpAdds(WithoutWrite(s, i));
  }

  lemma NoneLeft(hello: seq<Byte>)
    ensures [] == hello[|hello|..]
  {
  }

  lemma CompletedGreeting(hello: seq<Byte>, s: Sender, i: nat)
    requires PumpOk(s) && i < |s.writes| && (s.writes[i].Greet? || s.queue != []) && GreetingOk(hello, s)
    ensures GreetingOk(hello, Completed(s, i))
  {
    NoneLeft(hello);
    WithoutPump(s, i);
    if !s.writes[i].Greet? {
      PumpThrough(s, i);
    }
  }

  lemma FailedGreeting(hello: seq<Byte>, s: Sender, i: nat)
    requires PumpOk(s) && i < |s.writes| && GreetingOk(hello, s)
    ensures GreetingOk(hello, Failed(s, i))
  {
    NoneLeft(hello);
    WithoutPump(s, i);
  }

  lemma RunGreeting(s: Sender)
    requires s.posted != []
    ensures GreetingLeft(RunPosted(s).writes) == GreetingLeft(s.writes)
  {
    if s.queue == [] {
      GreetingBehind(s.writes, HeaderOf(s.posted[0], HeaderBytes(s.posted[0])));
    }
  }

  lemma EmittedGreeting(hello: seq<Byte>, s: Sender, i: nat, k: nat)
    requires PumpOk(s) && i < |s.writes| && k <= |s.writes[i].left| && GreetingOk(hello, s)
    ensures GreetingOk(hello, PutOut(s, i, k))
  {
    if s.writes[i].Greet? {
      assert i == 0;
      assert PutOut(s, i, k).writes[0] == Greet(s.writes[0].left[k..]);
    } else {
      assert PutOut(s, i, k).writes[i].left == s.writes[i].left[k..];
    }
  }

  lemma GreetingStep(n: Net, e: Event)
    requires PumpOk(n.snd) && Enabled(n, e) && GreetingOk(n.hello, n.snd)
    ensures GreetingOk(n.hello, Next(n, e).snd)
  {
    if e.WriteDone? {
      CompletedGreeting(n.hello, n.snd, e.i);
    } else if e.WriteFails? {
      FailedGreeting(n.hello, n.snd, e.i);
    } else if e.RunPost? {
      RunGreeting(n.snd);
    } else if e.Emit? {
      EmittedGreeting(n.hello, n.snd, e.i, e.k);
    }
  }

  lemma NetStep(n: Net, e: Event)
    requires NetOk(n) && Enabled(n, e)
    ensures NetOk(Next(n, e))
  {
    PumpStep(n, e);
    ReaderStep(n, e);
    GreetingStep(n, e);
  }

  lemma InitialOk(n: Net)
    requires Initial(n)
    ensures NetOk(n)
  {
    assert n.hello[0..] == n.hello;
  }

  lemma {:induction false} RunOk(run: seq<Net>)
    requires IsRun(run)
    ensures NetOk(run[|run| - 1])
  {
    var last := |run| - 1;
    if last == 0 {
      InitialOk(run[0]);
    } else {
      RunOk(run[..last]);
      var e :| Enabled(run[last - 1], e) && run[last] == Next(run[last - 1], e);
      NetStep(run[last - 1], e);
    }
  }

  lemma ReachableOk(n: Net)
    requires Reachable(n)
    ensures NetOk(n)
  {
    var run :| IsRun(run) && run[|run| - 1] == n;
    RunOk(run);
  }

  // ---------- main results: the pump ----------

  /** The write pump, in every reachable state: at most one of its writes is outstanding, on an open socket
      one is outstanding exactly if the queue is not empty, its buffer is the front message, and finished
      messages, queue and posted lambdas are all sends in order. */
  lemma PumpIsSound(n: Net)
    requires Reachable(n)
    ensures PumpWrites(n.snd.writes) <= 1
    ensures forall i, j :: 0 <= i < j < |n.snd.writes| ==> n.snd.writes[i].Greet? || n.snd.writes[j].Greet?
    ensures n.snd.open ==> (PumpWrites(n.snd.writes) == 1 <==> n.snd.queue != [])
    ensures forall w :: w in n.snd.writes && !w.Greet? ==> n.snd.queue != [] && w.msg == n.snd.queue[0]
    ensures n.snd.finished + n.snd.queue + n.snd.posted == n.snd.sends
  {
    ReachableOk(n);
    PumpCounts(n.snd);
    AtMostOnePumps(n.snd);
    PumpWritesTheFront(n.snd);
  }

  lemma AtMostOnePumps(s: Sender)
    requires PumpOk(s)
    ensures forall i, j :: 0 <= i < j < |s.writes| ==> s.writes[i].Greet? || s.writes[j].Greet?
  {
  }

  lemma PumpWritesTheFront(s: Sender)
    requires PumpOk(s)
    ensures forall w :: w in s.writes && !w.Greet? ==> s.queue != [] && w.msg == s.queue[0]
  {
    forall i | 0 <= i < |s.writes| && !s.writes[i].Greet?
      ensures s.queue != [] && s.writes[i].msg == s.queue[0]
    {
      assert i == |s.writes| - 1;
    }
  }

  lemma PumpCounts(s: Sender)
    requires PumpOk(s)
    ensures PumpWrites(s.writes) == if Pumping(s.writes) then 1 else 0
  {
    var ws := s.writes;
    if |ws| == 2 {
      PumpWritesOne(ws[0]);
      assert ws[..1] == [ws[0]];
    } else if |ws| == 1 {
      PumpWritesOne(ws[0]);
      assert ws == [ws[0]];
    }
  }

  lemma PumpWritesOne(w: Write)
    ensures PumpWrites([w]) == if w.Greet? then 0 else 1
  {
    assert [w][..0] == [];
  }

  /** The front message is never replaced while it is being written: an event leaves it alone, or it is the
      completion of its last write, which moves exactly it to the finished ones. */
  lemma FrontIsStable(n: Net, e: Event)
    requires Reachable(n) && Enabled(n, e) && n.snd.queue != []
    ensures var m, front := Next(n, e), n.snd.queue[0];
            || (m.snd.queue != [] && m.snd.queue[0] == front && m.snd.finished == n.snd.finished)
            || (e.WriteDone? && LastOf(front, n.snd.writes[e.i])
                && m.snd.finished == n.snd.finished + [front] && m.snd.queue == n.snd.queue[1..])
  {
    ReachableOk(n);
    if e.WriteDone? {
      CompletedFront(n.snd, e.i);
    } else {
      OthersLeaveFront(n, e);
    }
  }

  /** The write `w` was the last one of `front`, and is through. */
  predicate LastOf(front: Packet, w: Write) {
    w == if front.body == [] then HeaderOf(front, []) else BodyOf(front, [])
  }

  lemma OthersLeaveFront(n: Net, e: Event)
    requires Enabled(n, e) && n.snd.queue != [] && !e.WriteDone?
    ensures var m := Next(n, e).snd; m.queue != [] && m.queue[0] == n.snd.queue[0] && m.finished == n.snd.finished
  {
  }

  lemma CompletedFront(s: Sender, i: nat)
    requires PumpOk(s) && i < |s.writes| && s.queue != [] && s.writes[i].left == []
    ensures var t, front := Completed(s, i), s.queue[0];
            || (t.queue == s.queue && t.finished == s.finished)
            || (LastOf(front, s.writes[i]) && t.finished == s.finished + [front] && t.queue == s.queue[1..])
  {
    WithoutKeeps(s, i);
  }

  // ---------- main results: framing ----------

  /** The receiver has been told the truth so far. */
  ghost predicate Faithful(n: Net) {
    && (n.rcv.challenge.Some? ==> n.rcv.challenge.value == n.hello)
    && |n.rcv.got| <= |n.snd.sends|
    && (forall i :: 0 <= i < |n.rcv.got| ==> ReceivedAs(n.snd.sends[i], n.rcv.got[i]))
    && (n.rcv.body ==>
          |n.rcv.got| < |n.snd.sends| && HeaderBytes(n.rcv.temp) == HeaderBytes(n.snd.sends[|n.rcv.got|]))
  }

  /** What has been read is the beginning of what should have been sent. */
  ghost predicate InOrder(n: Net) {
    Read(n.rcv) <= n.hello + Frames(n.snd.sends)
  }

  ghost predicate Honest(p: Packet) {
    p.size > 0 ==> |p.body| == p.size
  }

  ghost predicate SameFrame(p: Packet, q: Packet) {
    p.id == q.id && p.size == q.size && Payload(p) == Payload(q)
  }

  lemma PrefixParts(a: seq<Byte>, x: seq<Byte>, b: seq<Byte>, y: seq<Byte>)
    requires |a| == |b|
    ensures a + x <= b + y <==> a == b && x <= y
  {
    if a + x <= b + y {
      assert a == (a + x)[..|a|] == (b + y)[..|a|];
      assert x == (a + x)[|a|..] && y == (b + y)[|a|..];
    }
  }

  /** Two frames at the start of the same bytes are the same. */
  lemma FrameDecides(p: Packet, x: seq<Byte>, q: Packet, y: seq<Byte>)
    requires Honest(p) && Honest(q) && Frame(p) + x <= Frame(q) + y
    ensures SameFrame(p, q) && x <= y
  {
    assert Frame(p) + x == HeaderBytes(p) + (Payload(p) + x);
    assert Frame(q) + y == HeaderBytes(q) + (Payload(q) + y);
    PrefixParts(HeaderBytes(p), Payload(p) + x, HeaderBytes(q), Payload(q) + y);
    HeaderDecides(p, q);
    PrefixParts(Payload(p), x, Payload(q), y);
  }

  lemma SameFromFirst(got: seq<Packet>, sends: seq<Packet>)
    requires got != [] && |got| <= |sends| && SameFrame(sends[0], got[0])
    requires forall i :: 0 <= i < |got| - 1 ==> SameFrame(sends[1..][i], got[1..][i])
    ensures forall i :: 0 <= i < |got| ==> SameFrame(sends[i], got[i])
  {
    forall i | 0 <= i < |got|
      ensures SameFrame(sends[i], got[i])
    {
      assert i > 0 ==> SameFrame(sends[1..][i - 1], got[1..][i - 1]);
    }
  }

  lemma {:induction false} HeaderDecidesFirst(sends: seq<Packet>, header: seq<Byte>)
    requires |header| == HEADER_SIZE && header <= Frames(sends)
    ensures sends != [] && header == HeaderBytes(sends[0])
  {
    assert sends != [];
    FramesFirst(sends);
    assert Frames(sends)[..HEADER_SIZE] == HeaderBytes(sends[0]);
  }

  /** A stream of frames can be read in one way only. */
  lemma {:induction false} FramesDecide(got: seq<Packet>, sends: seq<Packet>, header: seq<Byte>)
    requires (forall p :: p in got ==> Honest(p)) && (forall p :: p in sends ==> Honest(p))
    requires (header == [] || |header| == HEADER_SIZE) && Frames(got) + header <= Frames(sends)
    ensures |got| <= |sends| && forall i :: 0 <= i < |got| ==> SameFrame(sends[i], got[i])
    ensures header != [] ==> |got| < |sends| && header == HeaderBytes(sends[|got|])
  {
    if got == [] {
      if header != [] {
        assert Frames(got) + header == header;
        HeaderDecidesFirst(sends, header);
      }
    } else {
      FirstFrameDecides(got, sends, header);
      FramesDecide(got[1..], sends[1..], header);
      SameFromFirst(got, sends);
    }
  }

  lemma {:induction false} FirstFrameDecides(got: seq<Packet>, sends: seq<Packet>, header: seq<Byte>)
    requires (forall p :: p in got ==> Honest(p)) && (forall p :: p in sends ==> Honest(p))
    requires got != [] && Frames(got) + header <= Frames(sends)
    ensures sends != [] && SameFrame(sends[0], got[0]) && Frames(got[1..]) + header <= Frames(sends[1..])
  {
    FramesFirst(got);
    Regroup(Frame(got[0]), Frames(got[1..]), header);
    NotEmpty(got[0], Frames(got[1..]) + header, sends);
    FramesFirst(sends);
    FrameDecides(got[0], Frames(got[1..]) + header, sends[0], Frames(sends[1..]));
  }

  lemma {:induction false} NotEmpty(p: Packet, x: seq<Byte>, sends: seq<Packet>)
    requires Frame(p) + x <= Frames(sends)
    ensures sends != []
  {
    assert |Frame(p)| >= HEADER_SIZE;
  }

  lemma {:induction false} SameFramesAgree(got: seq<Packet>, sends: seq<Packet>)
    requires |got| == |sends| && forall i :: 0 <= i < |got| ==> SameFrame(sends[i], got[i])
    ensures Frames(got) == Frames(sends)
  {
    if got != [] {
      var n := |got| - 1;
      SameFramesAgree(got[..n], sends[..n]);
      HeaderDecides(got[n], sends[n]);
    }
  }

  lemma ReceivedIsSameFrame(p: Packet, q: Packet)
    requires Agrees(p) && Honest(q)
    ensures ReceivedAs(p, q) <==> SameFrame(p, q)
  {
    if SameFrame(p, q) {
      assert p.size == 0 ==> q.body[..0] == p.body;
    }
  }

  /** The frames of the first sends, and the header of the next one, start the stream. */
  lemma {:induction false} FramesStart(sends: seq<Packet>, k: nat, header: seq<Byte>)
    requires k <= |sends| && (header == [] || (k < |sends| && header == HeaderBytes(sends[k])))
    ensures Frames(sends[..k]) + header <= Frames(sends)
  {
    assert sends == sends[..k] + sends[k..];
    FramesAppend(sends[..k], sends[k..]);
    if header != [] {
      FramesFirst(sends[k..]);
      assert Frame(sends[k])[..HEADER_SIZE] == header;
    }
    PrefixParts(Frames(sends[..k]), header, Frames(sends[..k]), Frames(sends[k..]));
  }

  lemma FaithfulFrames(n: Net)
    requires ReaderOk(n.rcv) && Faithful(n) && forall p :: p in n.snd.sends ==> Agrees(p)
    ensures Frames(n.rcv.got) == Frames(n.snd.sends[..|n.rcv.got|])
  {
    var got, first := n.rcv.got, n.snd.sends[..|n.rcv.got|];
    forall i | 0 <= i < |got|
      ensures SameFrame(first[i], got[i])
    {
      assert Shaped(got, i) && first[i] == n.snd.sends[i];
      ReceivedIsSameFrame(first[i], got[i]);
    }
    SameFramesAgree(got, first);
  }

  lemma FaithfulIsInOrder(n: Net)
    requires NetOk(n) && Faithful(n)
    ensures InOrder(n)
  {
    var r, sends := n.rcv, n.snd.sends;
    if r.challenge.Some? {
      FaithfulFrames(n);
      var header := if r.body then HeaderBytes(r.temp) else [];
      FramesStart(sends, |r.got|, header);
      PrefixParts(r.challenge.value, Frames(r.got) + header, n.hello, Frames(sends));
    }
  }

  lemma InOrderIsFaithful(n: Net)
    requires NetOk(n) && InOrder(n)
    ensures Faithful(n)
  {
    var r, sends := n.rcv, n.snd.sends;
    if r.challenge.Some? {
      var header := if r.body then HeaderBytes(r.temp) else [];
      PrefixParts(r.challenge.value, Frames(r.got) + header, n.hello, Frames(sends));
      GotIsHonest(r);
      FramesDecide(r.got, sends, header);
      forall i | 0 <= i < |r.got|
        ensures ReceivedAs(sends[i], r.got[i])
      {
        ReceivedIsSameFrame(sends[i], r.got[i]);
      }
    }
  }

  /** Framing, exactly, in every reachable state: the challenge, every message handed up and the header of
      the message being read are the ones sent if and only if the bytes read so far are the handshake bytes
      followed by the frames of the sends in order. */
  lemma FramingExactly(n: Net)
    requires Reachable(n)
    ensures Faithful(n) <==> InOrder(n)
  {
    ReachableOk(n);
    if Faithful(n) {
      FaithfulIsInOrder(n);
    }
    if InOrder(n) {
      InOrderIsFaithful(n);
    }
  }

  // ---------- runs whose pump waits for the handshake bytes ----------

  /** What the pump has written of the front message. */
  function Written(ws: seq<Write>): seq<Byte> {
    if !Pumping(ws) then []
    else match Current(ws)
      case Greet(_) => []
      case HeaderOf(msg, left) => if |left| <= HEADER_SIZE then HeaderBytes(msg)[..HEADER_SIZE - |left|] else []
      case BodyOf(msg, left) =>
        if |left| <= |msg.body| then HeaderBytes(msg) + msg.body[..|msg.body| - |left|] else HeaderBytes(msg)
  }

  /** The handshake bytes that have left, when `left` are those still to leave. */
  function Started(hello: seq<Byte>, left: seq<Byte>): seq<Byte> {
    if |left| <= |hello| then hello[..|hello| - |left|] else []
  }

  /** What such a run has put on the wire: handshake bytes first, then frame after frame. */
  function Stream(hello: seq<Byte>, finished: seq<Packet>, ws: seq<Write>): seq<Byte> {
    Started(hello, GreetingLeft(ws)) + (Frames(finished) + Written(ws))
  }

  /** The pump has not started while handshake bytes are left. */
  ghost predicate Waits(s: Sender) {
    GreetingLeft(s.writes) != [] ==> s.queue == [] && s.finished == []
  }

  ghost predicate Orderly(n: Net) {
    if n.snd.open then Waits(n.snd) && n.out == Stream(n.hello, n.snd.finished, n.snd.writes)
    else n.out <= n.hello + Frames(n.snd.sends)
  }

  /** What has been written of the front message is the beginning of its frame. */
  lemma WrittenOfFront(ws: seq<Write>, front: Packet)
    requires Pumping(ws) && Writes(Current(ws), front) && Agrees(front)
    ensures Written(ws) <= Frame(front)
  {
    match Current(ws)
    case HeaderOf(_, left) =>
      assert HeaderBytes(front)[..HEADER_SIZE - |left|] <= HeaderBytes(front);
    case BodyOf(_, left) =>
      assert HeaderBytes(front) + front.body[..|front.body| - |left|] <= HeaderBytes(front) + front.body;
  }

  lemma WrittenIsPrefix(s: Sender)
    requires PumpOk(s)
    ensures Written(s.writes) <= Frames(s.queue + s.posted)
  {
    if Pumping(s.writes) {
      var rest := s.queue + s.posted;
      assert rest[0] == s.queue[0];
      FramesFirst(rest);
      FrontAgrees(s);
      WrittenOfFront(s.writes, s.queue[0]);
    }
  }

  lemma {:induction false} StartOfFrames(finished: seq<Packet>, rest: seq<Packet>, written: seq<Byte>)
    requires written <= Frames(rest)
    ensures Frames(finished) + written <= Frames(finished + rest)
  {
    FramesAppend(finished, rest);
    PrefixParts(Frames(finished), written, Frames(finished), Frames(rest));
  }

  lemma FinishedAndWritten(s: Sender)
    requires PumpOk(s)
    ensures Frames(s.finished) + Written(s.writes) <= Frames(s.sends)
  {
    assert s.sends == s.finished + (s.queue + s.posted);
    WrittenIsPrefix(s);
    StartOfFrames(s.finished, s.queue + s.posted, Written(s.writes));
  }

  lemma NothingYet(s: Sender)
    requires PumpOk(s) && s.queue == [] && s.finished == []
    ensures Frames(s.finished) + Written(s.writes) == []
  {
  }

  lemma OrderlyIsPrefix(n: Net)
    requires PumpOk(n.snd) && GreetingOk(n.hello, n.snd) && Orderly(n)
    ensures n.out <= n.hello + Frames(n.snd.sends)
  {
    var s := n.snd;
    if s.open {
      if GreetingLeft(s.writes) == [] {
        FinishedAndWritten(s);
        assert Started(n.hello, []) == n.hello;
        PrefixParts(n.hello, Frames(s.finished) + Written(s.writes), n.hello, Frames(s.sends));
      } else {
        NothingYet(s);
        assert n.out == Started(n.hello, GreetingLeft(s.writes));
        assert Started(n.hello, GreetingLeft(s.writes)) <= n.hello;
      }
    }
  }

  lemma SendsGrow(n: Net, e: Event)
    requires Enabled(n, e)
    ensures n.snd.sends <= Next(n, e).snd.sends
    ensures n.hello + Frames(n.snd.sends) <= n.hello + Frames(Next(n, e).snd.sends)
  {
    var more := Next(n, e).snd.sends;
    if e.Send? {
      FramesAppend(n.snd.sends, [e.p]);
    }
    PrefixParts(n.hello, Frames(n.snd.sends), n.hello, Frames(more));
  }

  lemma Continued(whole: seq<Byte>, left: seq<Byte>, k: nat)
    requires |left| <= |whole| && left == whole[|whole| - |left|..] && k <= |left|
    ensures whole[..|whole| - |left|] + left[..k] == whole[..|whole| - |left[k..]|]
  {
  }

  lemma HeaderEmits(ws: seq<Write>, after: seq<Write>, msg: Packet, left: seq<Byte>, k: nat)
    requires Pumping(ws) && Current(ws) == HeaderOf(msg, left)
    requires k <= |left| && Pumping(after) && Current(after) == HeaderOf(msg, left[k..])
    requires |left| <= HEADER_SIZE && left == HeaderBytes(msg)[HEADER_SIZE - |left|..]
    ensures Written(after) == Written(ws) + left[..k]
  {
    Continued(HeaderBytes(msg), left, k);
  }

  lemma BodyEmits(ws: seq<Write>, after: seq<Write>, msg: Packet, left: seq<Byte>, k: nat)
    requires Pumping(ws) && Current(ws) == BodyOf(msg, left)
    requires k <= |left| && Pumping(after) && Current(after) == BodyOf(msg, left[k..])
    requires |left| <= |msg.body| && left == msg.body[|msg.body| - |left|..]
    ensures Written(after) == Written(ws) + left[..k]
  {
    Continued(msg.body, left, k);
    Regroup(HeaderBytes(msg), msg.body[..|msg.body| - |left|], left[..k]);
  }

  lemma PumpEmits(ws: seq<Write>, w: Write, k: nat)
    requires Pumping(ws) && Current(ws) == w && k <= |w.left| && Writes(w, w.msg)
    ensures Written(ws[|ws| - 1 := w.(left := w.left[k..])]) == Written(ws) + w.left[..k]
  {
    var after := ws[|ws| - 1 := w.(left := w.left[k..])];
    if w.HeaderOf? {
      HeaderEmits(ws, after, w.msg, w.left, k);
    } else {
      BodyEmits(ws, after, w.msg, w.left, k);
    }
  }

  /** Bytes that leave continue the stream. */
  lemma PutOutStream(hello: seq<Byte>, s: Sender, i: nat, k: nat)
    requires PumpOk(s) && GreetingOk(hello, s) && Waits(s) && i < |s.writes| && k <= |s.writes[i].left|
    ensures Stream(hello, s.finished, PutOut(s, i, k).writes)
            == Stream(hello, s.finished, s.writes) + s.writes[i].left[..k]
  {
    var w, after := s.writes[i], PutOut(s, i, k);
    if !w.Greet? {
      assert i == |s.writes| - 1;
      PumpEmits(s.writes, w, k);
      assert GreetingLeft(after.writes) == GreetingLeft(s.writes);
      Regroup(Frames(s.finished), Written(s.writes), w.left[..k]);
      Regroup(Started(hello, GreetingLeft(s.writes)), Frames(s.finished) + Written(s.writes), w.left[..k]);
    } else if w.left != [] {
      GreetStream(hello, s, k);
    } else {
      assert after.writes == s.writes;
    }
  }

  lemma GreetOut(s: Sender, k: nat)
    requires GreetingLeft(s.writes) != [] && k <= |GreetingLeft(s.writes)|
    ensures GreetingLeft(PutOut(s, 0, k).writes) == GreetingLeft(s.writes)[k..]
  {
  }

  lemma GreetingAlone(hello: seq<Byte>, s: Sender)
    requires PumpOk(s) && s.queue == [] && s.finished == []
    ensures Stream(hello, s.finished, s.writes) == Started(hello, GreetingLeft(s.writes))
  {
    NothingYet(s);
    assert Started(hello, GreetingLeft(s.writes)) + [] == Started(hello, GreetingLeft(s.writes));
  }

  lemma GreetStream(hello: seq<Byte>, s: Sender, k: nat)
    requires PumpOk(s) && GreetingOk(hello, s) && Waits(s)
    requires GreetingLeft(s.writes) != [] && k <= |GreetingLeft(s.writes)|
    ensures Stream(hello, s.finished, PutOut(s, 0, k).writes)
         == Stream(hello, s.finished, s.writes) + GreetingLeft(s.writes)[..k]
  {
    PutOutKeeps(s, 0, k);
    GreetingAlone(hello, s);
    GreetingAlone(hello, PutOut(s, 0, k));
    GreetOut(s, k);
    Continued(hello, GreetingLeft(s.writes), k);
  }

  lemma EmitIsOrderly(n: Net, i: nat, k: nat)
    requires NetOk(n) && Orderly(n) && Enabled(n, Emit(i, k))
    ensures Orderly(Next(n, Emit(i, k)))
  {
    PutOutStream(n.hello, n.snd, i, k);
    StillWaits(n.snd, i, k);
  }

  lemma StillWaits(s: Sender, i: nat, k: nat)
    requires PumpOk(s) && Waits(s) && i < |s.writes| && k <= |s.writes[i].left|
    ensures Waits(PutOut(s, i, k))
  {
  }

  lemma FrontAgrees(s: Sender)
    requires PumpOk(s) && s.queue != []
    ensures Agrees(s.queue[0])
  {
    assert s.sends[|s.finished|] == s.queue[0];
  }

  /** The front header is through: the body is next. */
  lemma HeaderThrough(ws: seq<Write>, ws': seq<Write>, front: Packet)
    requires Pumping(ws) && Current(ws) == HeaderOf(front, [])
    requires Pumping(ws') && Current(ws') == BodyOf(front, front.body)
    ensures Written(ws') == Written(ws)
  {
    assert HeaderBytes(front)[..HEADER_SIZE] == HeaderBytes(front);
    assert HeaderBytes(front) + front.body[..0] == HeaderBytes(front);
  }

  /** All of the front message has been written. */
  lemma FrontThrough(ws: seq<Write>, front: Packet)
    requires Pumping(ws) && LastOf(front, Current(ws)) && Agrees(front)
    ensures Written(ws) == Frame(front)
  {
    assert HeaderBytes(front)[..HEADER_SIZE] == HeaderBytes(front);
    assert front.body[..|front.body|] == front.body;
  }

  /** After the last write of a message nothing of the next one has been written. */
  lemma NextFront(s: Sender)
    requires s.queue != [] && !Pumping(s.writes)
    ensures Written(PopSent(s).writes) == []
  {
  }

  lemma PoppedFrames(s: Sender)
    requires s.queue != [] && !Pumping(s.writes)
    ensures Frames(PopSent(s).finished) + Written(PopSent(s).writes) == Frames(s.finished) + Frame(s.queue[0])
  {
    NextFront(s);
    FramesAppend(s.finished, [s.queue[0]]);
    FramesOne(s.queue[0]);
  }

  /** What a completion does to the frames written: nothing. */
  lemma CompletedFrames(s: Sender, i: nat)
    requires PumpOk(s) && i < |s.writes| && s.writes[i].left == [] && !s.writes[i].Greet? && s.queue != []
    ensures var t := Completed(s, i); Frames(t.finished) + Written(t.writes) == Frames(s.finished) + Written(s.writes)
  {
    WithoutKeeps(s, i);
    var t, front := WithoutWrite(s, i), s.queue[0];
    FrontAgrees(s);
    if s.writes[i].HeaderOf? && front.body != [] {
      HeaderThrough(s.writes, WriteBody(t).writes, front);
    } else {
      FrontThrough(s.writes, front);
      PoppedFrames(t);
    }
  }

  lemma GreetingThrough(s: Sender, i: nat)
    requires PumpOk(s) && i < |s.writes| && s.writes[i] == Greet([])
    ensures var t := Completed(s, i);
            Written(t.writes) == Written(s.writes) && GreetingLeft(t.writes) == [] == GreetingLeft(s.writes)
  {
  }

  lemma DoneIsOrderly(n: Net, i: nat)
    requires NetOk(n) && Orderly(n) && Enabled(n, WriteDone(i))
    ensures Orderly(Next(n, WriteDone(i)))
  {
    var s := n.snd;
    if s.writes[i].Greet? {
      GreetingThrough(s, i);
    } else {
      CompletedFrames(s, i);
      PumpThrough(s, i);
      assert GreetingLeft(s.writes) == [];
    }
  }

  lemma RunIsOrderly(n: Net)
    requires NetOk(n) && Orderly(n) && n.snd.open && n.snd.posted != [] && GreetingLeft(n.snd.writes) == []
    ensures Orderly(Next(n, RunPost))
  {
    StartsAtNothing(n.snd);
  }

  lemma StartsAtNothing(s: Sender)
    requires PumpOk(s) && s.posted != []
    ensures Written(RunPosted(s).writes) == Written(s.writes)
    ensures GreetingLeft(RunPosted(s).writes) == GreetingLeft(s.writes)
  {
  }

  lemma ClosedIsOrderly(n: Net, e: Event)
    requires Enabled(n, e) && n.out <= n.hello + Frames(n.snd.sends) && Next(n, e).out == n.out && !Next(n, e).snd.open
    ensures Orderly(Next(n, e))
  {
    SendsGrow(n, e);
  }

  lemma OrderlyStep(n: Net, e: Event)
    requires NetOk(n) && Orderly(n) && Enabled(n, e) && !Hasty(n, e)
    ensures Orderly(Next(n, e))
  {
    OrderlyIsPrefix(n);
    if !Next(n, e).snd.open {
      ClosedIsOrderly(n, e);
    } else if e.RunPost? {
      RunIsOrderly(n);
    } else if e.Emit? {
      EmitIsOrderly(n, e.i, e.k);
    } else if e.WriteDone? {
      DoneIsOrderly(n, e.i);
    }
  }

  lemma {:induction false} OrderlyRunOk(run: seq<Net>)
    requires IsOrderlyRun(run)
    ensures IsRun(run) && Orderly(run[|run| - 1])
  {
    var last := |run| - 1;
    if last > 0 {
      OrderlyRunOk(run[..last]);
      RunOk(run[..last]);
      var e :| Enabled(run[last - 1], e) && !Hasty(run[last - 1], e) && run[last] == Next(run[last - 1], e);
      OrderlyStep(run[last - 1], e);
    } else {
      assert Stream(run[0].hello, [], run[0].snd.writes) == [];
    }
  }

  lemma OrderlyReachableOk(n: Net)
    requires OrderlyReachable(n)
    ensures Reachable(n) && NetOk(n) && Orderly(n)
  {
    var run :| IsOrderlyRun(run) && run[|run| - 1] == n;
    OrderlyRunOk(run);
    RunOk(run);
  }

  /** Framing correctness: in every run whose pump waits for the handshake bytes, whatever the interleaving,
      the messages handed up are the first messages sent, in order, with equal headers and equal first
      `size` bytes, and the challenge is the one sent. */
  lemma FramingIsCorrect(n: Net)
    requires OrderlyReachable(n)
    ensures Faithful(n)
  {
    OrderlyReachableOk(n);
    OrderlyIsPrefix(n);
    InOrderIsFaithful(n);
  }

  lemma SentInFull(n: Net)
    requires NetOk(n) && Orderly(n) && n.snd.open
    requires n.snd.posted == [] && n.snd.queue == [] && GreetingLeft(n.snd.writes) == []
    ensures n.out == n.hello + Frames(n.snd.sends)
  {
    assert n.snd.finished == n.snd.sends && Written(n.snd.writes) == [];
    assert n.hello[..|n.hello|] == n.hello && Frames(n.snd.sends) + [] == Frames(n.snd.sends);
  }

  lemma ReadInFull(n: Net)
    requires NothingLost(n) && n.wire == [] && n.rcv.buf == [] && n.rcv.challenge.Some? && !n.rcv.body
    ensures n.out == n.rcv.challenge.value + Frames(n.rcv.got)
  {
    assert Frames(n.rcv.got) + [] == Frames(n.rcv.got) && n.out == Read(n.rcv) + ([] + []);
  }

  lemma {:induction false} AllOfThem(sends: seq<Packet>, got: seq<Packet>)
    requires (forall p :: p in got ==> Honest(p)) && (forall p :: p in sends ==> Honest(p))
    requires Frames(sends) == Frames(got)
    ensures |got| == |sends|
  {
    assert Frames(sends) + [] <= Frames(got) && Frames(got) + [] <= Frames(sends);
    FramesDecide(sends, got, []);
    FramesDecide(got, sends, []);
  }

  /** Nothing gets lost: when no message is posted, queued or partly read and no byte is in flight, every
      message sent has been handed up. */
  lemma DrainedMeansDelivered(n: Net)
    requires OrderlyReachable(n) && n.snd.open
    requires n.snd.posted == [] && n.snd.queue == [] && GreetingLeft(n.snd.writes) == []
    requires n.wire == [] && n.rcv.buf == [] && n.rcv.challenge.Some? && !n.rcv.body
    ensures |n.rcv.got| == |n.snd.sends|
  {
    OrderlyReachableOk(n);
    FramingIsCorrect(n);
    SentInFull(n);
    ReadInFull(n);
    PrefixParts(n.hello, Frames(n.snd.sends), n.rcv.challenge.value, Frames(n.rcv.got));
    PrefixParts(n.rcv.challenge.value, Frames(n.rcv.got), n.hello, Frames(n.snd.sends));
    GotIsHonest(n.rcv);
    AllOfThem(n.snd.sends, n.rcv.got);
  }

  lemma GotIsHonest(r: Receiver)
    requires ReaderOk(r)
    ensures forall p :: p in r.got ==> Honest(p)
  {
    forall p | p in r.got
      ensures Honest(p)
    {
      var i :| 0 <= i < |r.got| && r.got[i] == p;
      assert Shaped(r.got, i);
    }
  }

  // ---------- stale bodies ----------

  lemma {:induction false} NoLastBody(ps: seq<Packet>)
    requires forall p :: p in ps ==> Honest(p)
    ensures LastBody(ps) == [] <==> forall p :: p in ps ==> p.size == 0
  {
    if ps != [] {
      var rest, p := ps[..|ps| - 1], ps[|ps| - 1];
      assert p in ps;
      NoLastBody(rest);
      assert ps == rest + [p];
    }
  }

  lemma EarlierSizes(got: seq<Packet>, sends: seq<Packet>, k: nat)
    requires k <= |got| <= |sends| && forall i :: 0 <= i < |got| ==> got[i].size == sends[i].size
    ensures (forall p :: p in got[..k] ==> p.size == 0) <==> (forall p :: p in sends[..k] ==> p.size == 0)
  {
    assert forall i :: 0 <= i < k ==> got[..k][i].size == sends[..k][i].size;
  }

  /** A message without a body is handed up with the last body before it, so relaying it would announce no
      bytes and write some. It is handed up as it was sent exactly if it has a body or no message before it
      had one. */
  lemma StaleBodyExactly(n: Net, k: nat)
    requires Reachable(n) && Faithful(n) && k < |n.rcv.got|
    ensures n.rcv.got[k] == n.snd.sends[k] <==>
            n.snd.sends[k].size > 0 || forall p :: p in n.snd.sends[..k] ==> p.size == 0
  {
    ReachableOk(n);
    var got, sends := n.rcv.got, n.snd.sends;
    assert Shaped(got, k) && ReceivedAs(sends[k], got[k]);
    GotIsHonest(n.rcv);
    assert forall p :: p in got[..k] ==> p in got;
    NoLastBody(got[..k]);
    EarlierSizes(got, sends, k);
  }

  // ---------- main results: failures ----------

  /** Nothing is read at a closed end. */
  lemma {:induction false} ClosedReaderIsDone(n: Net, es: seq<Event>)
    requires !n.rcv.open && Play(n, es).Some?
    ensures var m := Play(n, es).value;
            !m.rcv.open && m.rcv.got == n.rcv.got && m.rcv.challenge == n.rcv.challenge
    decreases |es|
  {
    if es != [] {
      ClosedReaderIsDone(Next(n, es[0]), es[1..]);
    }
  }

  /** A failed read is the last one: whatever happens afterwards, no further message is handed up and no
      handshake is read. */
  lemma {:induction false} FailedReadIsTheLast(n: Net, es: seq<Event>)
    requires n.rcv.open && Play(Next(n, ReadFails), es).Some?
    ensures var m := Play(Next(n, ReadFails), es).value;
            !m.rcv.open && m.rcv.got == n.rcv.got && m.rcv.challenge == n.rcv.challenge
  {
    ClosedReaderIsDone(Next(n, ReadFails), es);
  }

  /** Nothing leaves a closed end, and nothing is finished there. */
  lemma {:induction false} ClosedWriterIsDone(n: Net, es: seq<Event>)
    requires !n.snd.open && Play(n, es).Some?
    ensures var m := Play(n, es).value;
            !m.snd.open && m.out == n.out && m.snd.finished == n.snd.finished
    decreases |es|
  {
    if es != [] {
      ClosedWriterIsDone(Next(n, es[0]), es[1..]);
    }
  }

  /** So is a failed write: no further byte leaves. */
  lemma {:induction false} FailedWriteIsTheLast(n: Net, i: nat, es: seq<Event>)
    requires n.snd.open && i < |n.snd.writes| && Play(Next(n, WriteFails(i)), es).Some?
    ensures var m := Play(Next(n, WriteFails(i)), es).value;
            !m.snd.open && m.out == n.out && m.snd.finished == n.snd.finished
  {
    ClosedWriterIsDone(Next(n, WriteFails(i)), es);
  }

  // ---------- main results: the bytes on the wire ----------

  lemma SmallImage(b: Byte)
    ensures Encode(b) == [b, 0, 0, 0]
  {
    LowByteFirst(0, b);
    assert Encode(0) == [0, 0, 0, 0];
  }

  /** What a packet that carries nothing, or one id, looks like on the wire: type, then size, then body, every
      word least significant byte first. */
  lemma OnTheWire(t: Byte, x: Word)
    ensures Frame(NewPacket(t)) == [t, 0, 0, 0, 0, 0, 0, 0]
    ensures Frame(IdPacket(t, x)) == [t, 0, 0, 0, 4, 0, 0, 0] + Encode(x)
  {
    SmallImage(t);
    SmallImage(0);
    SmallImage(4);
    assert IdPacket(t, x) == Packet(t, 4, Encode(x));
  }

  /** The packets of the protocol, with the numbers that their types have on the wire. */
  lemma ProtocolOnTheWire(x: Word)
    ensures Frame(NewPacket(CLIENT_ACCEPTED)) == [2, 0, 0, 0, 0, 0, 0, 0]
    ensures Frame(NewPacket(CLIENT_REGISTER)) == [4, 0, 0, 0, 0, 0, 0, 0]
    ensures Frame(IdPacket(CLIENT_ASSIGN_ID, x)) == [3, 0, 0, 0, 4, 0, 0, 0] + Encode(x)
    ensures Frame(IdPacket(GAME_ADD_CLIENT, x)) == [6, 0, 0, 0, 4, 0, 0, 0] + Encode(x)
    ensures Frame(IdPacket(GAME_REMOVE_CLIENT, x)) == [7, 0, 0, 0, 4, 0, 0, 0] + Encode(x)
    ensures HeaderBytes(NewPacket(GAME_SNAPSHOT)) == [8, 0, 0, 0, 0, 0, 0, 0]
    ensures HeaderBytes(NewPacket(GAME_EVENT_CLIENT)) == [9, 0, 0, 0, 0, 0, 0, 0]
  {
    OnTheWire(2, x);
    OnTheWire(4, x);
    OnTheWire(3, x);
    OnTheWire(6, x);
    OnTheWire(7, x);
    OnTheWire(8, x);
    OnTheWire(9, x);
  }
}
