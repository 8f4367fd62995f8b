/** NetworkManager/connection.h on values: one direction of one connection, from `Send` at one end to
    the incoming queue at the other, with every completion handler a step of its own. */
module Transport {
  import opened Words
  import opened Lists
  import opened Packets

  const HEADER_SIZE := 8
  const GREETING_SIZE := 8

  /** The bytes of `packet_header` in memory: the type, then the size. */
  function HeaderBytes(p: Packet): (bytes: seq<Byte>)
    ensures |bytes| == HEADER_SIZE
  {
    Encode(p.id) + Encode(p.size)
  }

  /** The body bytes that the header announces; a header that announces none may sit before an old body. */
  function Payload(p: Packet): seq<Byte> {
    if p.size == 0 then [] else p.body
  }

  function Frame(p: Packet): seq<Byte> {
    HeaderBytes(p) + Payload(p)
  }

  function Frames(ps: seq<Packet>): seq<Byte> {
    if ps == [] then [] else Frames(ps[..|ps| - 1]) + Frame(ps[|ps| - 1])
  }

  /** An `async_write` that has not completed: the message whose buffer it was given, and the bytes of that
      buffer it has still to put on the wire. `Greet` is the handshake write. */
  datatype Write =
    | Greet(left: seq<Byte>)
    | HeaderOf(msg: Packet, left: seq<Byte>)
    | BodyOf(msg: Packet, left: seq<Byte>)

  /** The sending end. `posted` are the lambdas that `Send` has posted, `queue` is m_qMessagesOut, `writes`
      all writes outstanding on the socket, oldest first; `sends` and `finished` are history. */
  datatype Sender = Sender(open: bool, posted: seq<Packet>, queue: seq<Packet>, writes: seq<Write>,
                           sends: seq<Packet>, finished: seq<Packet>)

  /** The receiving end. `challenge` are the handshake bytes once they have been read, `buf` what has arrived
      and not been read, `temp` is m_msgTemporaryIn, `body` says that a body read is outstanding; `got` is
      what has been handed up. */
  datatype Receiver = Receiver(open: bool, challenge: Option<seq<Byte>>, buf: seq<Byte>, temp: Packet, body: bool,
                               got: seq<Packet>)

  // ---------- the sending handlers ----------

  /** `Send`: the lambda is posted, whatever the state of the socket. */
  function PostSend(s: Sender, p: Packet): Sender {
    s.(posted := s.posted + [p], sends := s.sends + [p])
  }

  /** WriteHeader: one more write on the socket, of the front header. */
  function WriteHeader(s: Sender): Sender
    requires s.queue != []
  {
    s.(writes := s.writes + [HeaderOf(s.queue[0], HeaderBytes(s.queue[0]))])
  }

  /** WriteBody: one more write on the socket, of the front body. */
  function WriteBody(s: Sender): Sender
    requires s.queue != []
  {
    s.(writes := s.writes + [BodyOf(s.queue[0], s.queue[0].body)])
  }

  /** WriteValidation: one more write on the socket, of the handshake bytes. */
  function WriteGreeting(s: Sender, bytes: seq<Byte>): Sender {
    s.(writes := s.writes + [Greet(bytes)])
  }

  /** The posted lambda: queue the packet, and start the pump if the queue was empty. */
  function RunPosted(s: Sender): Sender
    requires s.posted != []
  {
    var t := s.(posted := s.posted[1..], queue := s.queue + [s.posted[0]]);
    if s.queue == [] then WriteHeader(t) else t
  }

  /** pop_front, and the next header if there is one. */
  function PopSent(s: Sender): Sender
    requires s.queue != []
  {
    var t := s.(queue := s.queue[1..], finished := s.finished + [s.queue[0]]);
    if t.queue == [] then t else WriteHeader(t)
  }

  /** The completion handler of WriteHeader. */
  function HeaderWritten(s: Sender): Sender
    requires s.queue != []
  {
    if |s.queue[0].body| > 0 then WriteBody(s) else PopSent(s)
  }

  /** The completion handler of WriteBody. */
  function BodyWritten(s: Sender): Sender
    requires s.queue != []
  {
    PopSent(s)
  }

  function WithoutWrite(s: Sender, i: nat): Sender
    requires i < |s.writes|
  {
    s.(writes := s.writes[..i] + s.writes[i + 1..])
  }

  /** Write `i` completes: it is no longer outstanding, and its handler runs. */
  function Completed(s: Sender, i: nat): Sender
    requires i < |s.writes| && (s.writes[i].Greet? || s.queue != [])
  {
    match s.writes[i]
    case Greet(_) => WithoutWrite(s, i)
    case HeaderOf(_, _) => HeaderWritten(WithoutWrite(s, i))
    case BodyOf(_, _) => BodyWritten(WithoutWrite(s, i))
  }

  /** Write `i` completes with an error: every handler then closes the socket. */
  function Failed(s: Sender, i: nat): Sender
    requires i < |s.writes|
  {
    WithoutWrite(s, i).(open := false)
  }

  /** Write `i` puts its next `k` bytes on the wire. */
  function PutOut(s: Sender, i: nat, k: nat): Sender
    requires i < |s.writes| && k <= |s.writes[i].left|
  {
    s.(writes := s.writes[i := s.writes[i].(left := s.writes[i].left[k..])])
  }

  // ---------- the receiving handlers ----------

  /** The completion handler of ReadValidation, as far as the stream goes. */
  function GreetingRead(r: Receiver): Receiver
    requires GREETING_SIZE <= |r.buf|
  {
    r.(challenge := Some(r.buf[..GREETING_SIZE]), buf := r.buf[GREETING_SIZE..])
  }

  /** AddToIncomingMessageQueue, followed by the next ReadHeader. */
  function HandUp(r: Receiver): Receiver {
    r.(got := r.got + [r.temp], body := false)
  }

  /** `vector::resize` on the body of m_msgTemporaryIn. */
  function Resized(body: seq<Byte>, n: nat): (r: seq<Byte>)
    ensures |r| == n && forall k :: 0 <= k < n ==> r[k] == if k < |body| then body[k] else 0
  {
    if n <= |body| then body[..n] else body + seq(n - |body|, _ => 0)
  }

  /** The completion handler of ReadHeader. A header that announces no body leaves the old body there. */
  function HeaderRead(r: Receiver): Receiver
    requires HEADER_SIZE <= |r.buf|
  {
    var temp := Packet(Decode(r.buf[..4]), Decode(r.buf[4..8]), r.temp.body);
    var rest := r.buf[HEADER_SIZE..];
    if temp.size > 0 then r.(buf := rest, temp := temp.(body := Resized(temp.body, temp.size)), body := true)
    else HandUp(r.(buf := rest, temp := temp))
  }

  /** The completion handler of ReadBody. */
  function BodyRead(r: Receiver): Receiver
    requires |r.temp.body| <= |r.buf|
  {
    HandUp(r.(buf := r.buf[|r.temp.body|..], temp := r.temp.(body := r.buf[..|r.temp.body|])))
  }

  /** The completion handlers of the three reads on an error: the socket is closed. */
  function ReadFailed(r: Receiver): Receiver {
    r.(open := false)
  }

  // ---------- one direction as a state machine ----------

  /** `hello` are the handshake bytes this direction starts with, `wire` the bytes in flight, and `out` all
      bytes that have ever left the sender. */
  datatype Net = Net(hello: seq<Byte>, snd: Sender, out: seq<Byte>, wire: seq<Byte>, rcv: Receiver)

  datatype Event =
    | Send(p: Packet)
    | RunPost
    | Emit(i: nat, k: nat)
    | WriteDone(i: nat)
    | WriteFails(i: nat)
    | Arrive(k: nat)
    | ReadGreeting
    | ReadDone
    | ReadFails

  ghost predicate Initial(n: Net) {
    && |n.hello| == GREETING_SIZE
    && n.snd == WriteGreeting(Sender(true, [], [], [], [], []), n.hello)
    && n.out == [] && n.wire == []
    && n.rcv == Receiver(true, None, [], NewPacket(0), false, [])
  }

  predicate Enabled(n: Net, e: Event) {
    match e
    case Send(p) => Agrees(p)
    case RunPost => n.snd.posted != []
    case Emit(i, k) => n.snd.open && i < |n.snd.writes| && k <= |n.snd.writes[i].left|
    case WriteDone(i) =>
      n.snd.open && i < |n.snd.writes| && n.snd.writes[i].left == [] && (n.snd.writes[i].Greet? || n.snd.queue != [])
    case WriteFails(i) => n.snd.open && i < |n.snd.writes|
    case Arrive(k) => k <= |n.wire|
    case ReadGreeting => n.rcv.open && n.rcv.challenge.None? && GREETING_SIZE <= |n.rcv.buf|
    case ReadDone =>
      n.rcv.open && n.rcv.challenge.Some? && (if n.rcv.body then |n.rcv.temp.body| else HEADER_SIZE) <= |n.rcv.buf|
    case ReadFails => n.rcv.open
  }

  function Next(n: Net, e: Event): Net
    requires Enabled(n, e)
  {
    match e
    case Send(p) => n.(snd := PostSend(n.snd, p))
    case RunPost => n.(snd := RunPosted(n.snd))
    case Emit(i, k) =>
      var bytes := n.snd.writes[i].left[..k];
      n.(snd := PutOut(n.snd, i, k), out := n.out + bytes, wire := n.wire + bytes)
    case WriteDone(i) => n.(snd := Completed(n.snd, i))
    case WriteFails(i) => n.(snd := Failed(n.snd, i))
    case Arrive(k) => n.(wire := n.wire[k..], rcv := n.rcv.(buf := n.rcv.buf + n.wire[..k]))
    case ReadGreeting => n.(rcv := GreetingRead(n.rcv))
    case ReadDone => n.(rcv := if n.rcv.body then BodyRead(n.rcv) else HeaderRead(n.rcv))
    case ReadFails => n.(rcv := ReadFailed(n.rcv))
  }

  /** The handshake bytes that have not left yet. */
  function GreetingLeft(ws: seq<Write>): seq<Byte> {
    if ws != [] && ws[0].Greet? then ws[0].left else []
  }

  /** A posted lambda runs while handshake bytes are still to leave. */
  predicate Hasty(n: Net, e: Event) {
    e == RunPost && GreetingLeft(n.snd.writes) != []
  }

  /** Every interleaving of handlers, partial writes, arrivals and failures. */
  ghost predicate IsRun(run: seq<Net>) {
    run != [] &&
    if |run| == 1 then Initial(run[0])
    else IsRun(run[..|run| - 1]) && Follows(run[|run| - 2], run[|run| - 1])
  }

  ghost predicate Follows(n: Net, m: Net) {
    exists e :: Enabled(n, e) && m == Next(n, e)
  }

  ghost predicate Reachable(n: Net) {
    exists run :: IsRun(run) && run[|run| - 1] == n
  }

  /** The runs whose pump waits for the handshake bytes. */
  ghost predicate IsOrderlyRun(run: seq<Net>) {
    run != [] &&
    if |run| == 1 then Initial(run[0])
    else IsOrderlyRun(run[..|run| - 1]) && OrderlyFollows(run[|run| - 2], run[|run| - 1])
  }

  ghost predicate OrderlyFollows(n: Net, m: Net) {
    exists e :: Enabled(n, e) && !Hasty(n, e) && m == Next(n, e)
  }

  ghost predicate OrderlyReachable(n: Net) {
    exists run :: IsOrderlyRun(run) && run[|run| - 1] == n
  }

  /** The events of `es` one after the other, as long as they are enabled. */
  function Play(n: Net, es: seq<Event>): Option<Net>
    decreases |es|
  {
    if es == [] then Some(n)
    else if Enabled(n, es[0]) then Play(Next(n, es[0]), es[1..])
    else None
  }
}
