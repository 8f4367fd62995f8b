/** NetworkManager/packet.h and PacketType.h: the header, the byte body and the two stream operators. */
module Packets {
  import opened Words
  import opened Lists

  // The enumerators of PacketType that carry traffic, at their positions in the enumeration.
  const CLIENT_ACCEPTED: Word := 2
  const CLIENT_ASSIGN_ID: Word := 3
  const CLIENT_REGISTER: Word := 4
  const GAME_ADD_CLIENT: Word := 6
  const GAME_REMOVE_CLIENT: Word := 7
  const GAME_SNAPSHOT: Word := 8
  const GAME_EVENT_CLIENT: Word := 9

  predicate IsGame(id: Word) {
    id == GAME_SNAPSHOT || id == GAME_EVENT_CLIENT
  }

  /** A packet by value: `id` and `size` are the two header words. */
  datatype Packet = Packet(id: Word, size: Word, body: seq<Byte>)

  /** The header tells the truth about the body. */
  predicate Agrees(p: Packet) {
    p.size == |p.body|
  }

  function NewPacket(id: Word): Packet {
    Packet(id, 0, [])
  }

  /** `size()` is a `size_t`, 32 bits wide here, stored in a `uint32_t`. */
  function SizeWord(body: seq<Byte>): Word {
    |body| % WORD_BOUND
  }

  /** `pkt << data`, with `data` given by its memory image. */
  function Push(p: Packet, data: seq<Byte>): Packet {
    Packet(p.id, SizeWord(p.body + data), p.body + data)
  }

  /** What `pkt >> data` leaves in the packet when `data` is `width` bytes wide. */
  function PopRest(p: Packet, width: nat): Packet
    requires width <= |p.body|
  {
    var rest := p.body[..|p.body| - width];
    Packet(p.id, SizeWord(rest), rest)
  }

  /** What `pkt >> data` stores in `data`. */
  function PopData(p: Packet, width: nat): (data: seq<Byte>)
    requires width <= |p.body|
    ensures |data| == width
  {
    p.body[|p.body| - width..]
  }

  function PushWord(p: Packet, w: Word): Packet {
    Push(p, Encode(w))
  }

  function PopWord(p: Packet): Word
    requires 4 <= |p.body|
  {
    Decode(PopData(p, 4))
  }

  /** What a receiver holds for a sent packet: equal headers and equal first `size` body bytes. With a
      nonempty body the packets are equal; with an empty one an earlier body may still be there. */
  predicate ReceivedAs(sent: Packet, got: Packet) {
    && Agrees(sent) && got.id == sent.id && got.size == sent.size
    && sent.size <= |got.body| && got.body[..sent.size] == sent.body
    && (sent.size > 0 ==> got == sent)
  }

  /** A packet of the given type that carries one id, as the server builds them. */
  function IdPacket(id: Word, x: Word): Packet {
    PushWord(NewPacket(id), x)
  }

  lemma PopUndoesPush(p: Packet, data: seq<Byte>)
    ensures PopData(Push(p, data), |data|) == data
    ensures PopRest(Push(p, data), |data|) == p.(size := SizeWord(p.body))
  {
    assert (p.body + data)[..|p.body|] == p.body;
  }

  lemma PopUndoesPushWord(p: Packet, w: Word)
    ensures PopWord(PushWord(p, w)) == w
    ensures PopRest(PushWord(p, w), 4) == p.(size := SizeWord(p.body))
  {
    PopUndoesPush(p, Encode(w));
    DecodeEncode(w);
  }

  lemma IdPacketCarries(id: Word, x: Word)
    ensures var p := IdPacket(id, x); p.id == id && p.size == 4 == |p.body| && PopWord(p) == x
  {
    PopUndoesPushWord(NewPacket(id), x);
  }

  /** One use of a stream operator. */
  datatype StreamOp = PushOp(data: seq<Byte>) | PopOp(width: nat)

  datatype StreamRun = StreamRun(packet: Packet, popped: seq<seq<Byte>>)

  /** A list of stream operations on one packet; None where a pop would read below the body. */
  function RunPacket(p: Packet, ops: seq<StreamOp>): Option<StreamRun>
    decreases |ops|
  {
    if ops == [] then Some(StreamRun(p, []))
    else match ops[0]
      case PushOp(data) => RunPacket(Push(p, data), ops[1..])
      case PopOp(width) =>
        if width > |p.body| then None
        else match RunPacket(PopRest(p, width), ops[1..])
          case None => None
          case Some(r) => Some(StreamRun(r.packet, [PopData(p, width)] + r.popped))
  }

  /** The same operations on a stack of fields, each pop naming the width of the field on top. */
  ghost predicate WellTyped(stack: seq<seq<Byte>>, ops: seq<StreamOp>)
    decreases |ops|
  {
    ops == [] ||
    match ops[0]
    case PushOp(data) => WellTyped(stack + [data], ops[1..])
    case PopOp(width) =>
      stack != [] && |stack[|stack| - 1]| == width && WellTyped(stack[..|stack| - 1], ops[1..])
  }

  ghost function StackAfter(stack: seq<seq<Byte>>, ops: seq<StreamOp>): seq<seq<Byte>>
    requires WellTyped(stack, ops)
    decreases |ops|
  {
    if ops == [] then stack
    else match ops[0]
      case PushOp(data) => StackAfter(stack + [data], ops[1..])
      case PopOp(_) => StackAfter(stack[..|stack| - 1], ops[1..])
  }

  ghost function StackPopped(stack: seq<seq<Byte>>, ops: seq<StreamOp>): seq<seq<Byte>>
    requires WellTyped(stack, ops)
    decreases |ops|
  {
    if ops == [] then []
    else match ops[0]
      case PushOp(data) => StackPopped(stack + [data], ops[1..])
      case PopOp(_) => [stack[|stack| - 1]] + StackPopped(stack[..|stack| - 1], ops[1..])
  }

  ghost function Flatten(stack: seq<seq<Byte>>): seq<Byte> {
    if stack == [] then [] else Flatten(stack[..|stack| - 1]) + stack[|stack| - 1]
  }

  /** What StackDiscipline promises of one run. */
  ghost predicate Disciplined(p: Packet, base: seq<Byte>, stack: seq<seq<Byte>>, ops: seq<StreamOp>,
    run: Option<StreamRun>)
    requires WellTyped(stack, ops)
  {
    && run.Some?
    && run.value.popped == StackPopped(stack, ops)
    && run.value.packet.body == base + Flatten(StackAfter(stack, ops))
    && run.value.packet.id == p.id
    && (|run.value.packet.body| < WORD_BOUND && (Agrees(p) || ops != []) ==> Agrees(run.value.packet))
  }

  lemma PushAgrees(p: Packet, data: seq<Byte>)
    ensures |p.body| + |data| < WORD_BOUND ==> Agrees(Push(p, data))
  {
  }

  lemma PopAgrees(p: Packet, width: nat)
    requires width <= |p.body|
    ensures |p.body| - width < WORD_BOUND ==> Agrees(PopRest(p, width))
  {
  }

  /** Any well-typed mix of pushes and pops treats the body as a stack of fields above `base`:
      the values come back last in, first out, whatever their widths; the packet type is never
      touched; and after every operation the header size is the body size. */
  lemma {:induction false} StackDiscipline(p: Packet, base: seq<Byte>, stack: seq<seq<Byte>>, ops: seq<StreamOp>)
    requires WellTyped(stack, ops)
    requires p.body == base + Flatten(stack)
    ensures Disciplined(p, base, stack, ops, RunPacket(p, ops))
    decreases |ops|
  {
    if ops != [] {
      if ops[0].PushOp? {
        StackPush(p, base, stack, ops);
      } else {
        StackPop(p, base, stack, ops);
      }
    }
  }

  lemma {:induction false} StackPush(p: Packet, base: seq<Byte>, stack: seq<seq<Byte>>, ops: seq<StreamOp>)
    requires ops != [] && ops[0].PushOp? && WellTyped(stack, ops)
    requires p.body == base + Flatten(stack)
    ensures Disciplined(p, base, stack, ops, RunPacket(p, ops))
    decreases |ops|, 0
  {
    var data, rest := ops[0].data, ops[1..];
    var deeper := stack + [data];
    assert deeper[..|deeper| - 1] == stack;
    assert Push(p, data).body == base + Flatten(deeper);
    PushAgrees(p, data);
    StackDiscipline(Push(p, data), base, deeper, rest);
  }

  lemma {:induction false} StackPop(p: Packet, base: seq<Byte>, stack: seq<seq<Byte>>, ops: seq<StreamOp>)
    requires ops != [] && ops[0].PopOp? && WellTyped(stack, ops)
    requires p.body == base + Flatten(stack)
    ensures Disciplined(p, base, stack, ops, RunPacket(p, ops))
    decreases |ops|, 0
  {
    var width, rest := ops[0].width, ops[1..];
    var top, below := stack[|stack| - 1], stack[..|stack| - 1];
    assert p.body == (base + Flatten(below)) + top;
    assert PopData(p, width) == top;
    assert PopRest(p, width).body == base + Flatten(below);
    PopAgrees(p, width);
    StackDiscipline(PopRest(p, width), base, below, rest);
  }

  /** `net::packet`, the mutable object the operators work on. */
  class PacketBuffer {
    var id: Word
    var size: Word
    var body: seq<Byte>

    ghost function Value(): Packet
      reads this
    {
      Packet(id, size, body)
    }

    constructor (id: Word)
      ensures Value() == NewPacket(id)
    {
      this.id, size, body := id, 0, [];
    }

    constructor FromValue(p: Packet)
      ensures Value() == p
    {
      id, size, body := p.id, p.size, p.body;
    }

    /** `vector::resize`: the tail is zero-filled or cut off. */
    method Resize(n: nat)
      modifies this`body
      ensures |body| == n
      ensures if n <= |old(body)| then body == old(body)[..n] else old(body) <= body
    {
      body := if n <= |body| then body[..n] else body + seq(n - |body|, _ => 0);
    }

    method PushBytes(data: seq<Byte>)
      modifies this
      ensures Value() == Push(old(Value()), data)
    {
      var i := |body|;
      Resize(|body| + |data|);
      body := body[..i] + data;
      size := |body| % WORD_BOUND;
    }

    method PopBytes(width: nat) returns (data: seq<Byte>)
      requires width <= |body|
      modifies this
      ensures data == PopData(old(Value()), width)
      ensures Value() == PopRest(old(Value()), width)
    {
      var i := |body| - width;
      data := body[i..];
      Resize(i);
      size := |body| % WORD_BOUND;
    }

    method PushU32(w: Word)
      modifies this
      ensures Value() == PushWord(old(Value()), w)
    {
      PushBytes(Encode(w));
    }

    method PopU32() returns (w: Word)
      requires 4 <= |body|
      modifies this
      ensures w == PopWord(old(Value()))
      ensures Value() == PopRest(old(Value()), 4)
    {
      var data := PopBytes(4);
      w := Decode(data);
    }
  }
}
