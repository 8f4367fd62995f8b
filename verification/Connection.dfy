/** NetworkManager/connection.h: the connection object. asio runs one handler at a time; each is a method
    here, and what it does to the two pumps is the corresponding function of module Transport. */
module Connections {
  import opened Words
  import opened Lists
  import opened Packets
  import opened TsQueues
  import T = Transport
  import Handshake

  datatype Owner = ServerSide | ClientSide

  /** `owned_packet`: on the server `remote` is the connection it came from, on a client it is null. */
  datatype OwnedPacket = OwnedPacket(remote: Connection?, packet: Packet)

  class Connection {
    const owner: Owner
    const messagesIn: TsQueue<OwnedPacket>
    const messagesOut: TsQueue<Packet>
    var id: Word
    var isOpen: bool
    var handshakeOut: bv64
    var handshakeIn: bv64
    var handshakeCheck: bv64
    var posted: seq<Packet>
    var temporaryIn: Packet
    var readingBody: bool

    /** The writes outstanding on the socket, and history. */
    ghost var writes: seq<T.Write>
    ghost var challenge: Option<seq<Byte>>
    ghost var sends: seq<Packet>
    ghost var finished: seq<Packet>
    ghost var handedUp: seq<Packet>

    /** The sending half, as Transport speaks of it. */
    ghost function Sending(): T.Sender
      reads this, messagesOut
    {
      T.Sender(isOpen, posted, messagesOut.deqQueue, writes, sends, finished)
    }

    /** The receiving half with `buf` unread on the socket. */
    ghost function Receiving(buf: seq<Byte>): T.Receiver
      reads this
    {
      T.Receiver(isOpen, challenge, buf, temporaryIn, readingBody, handedUp)
    }

    constructor (owner: Owner, clock: bv64, messagesIn: TsQueue<OwnedPacket>)
      ensures this.owner == owner && this.messagesIn == messagesIn && fresh(messagesOut)
      ensures id == 0 && isOpen && sends == []
      ensures Sending() == T.Sender(true, [], [], [], [], [])
      ensures Receiving([]) == T.Receiver(true, None, [], NewPacket(0), false, [])
      ensures owner == ServerSide ==> handshakeOut == clock && handshakeCheck == Handshake.Scramble(clock)
      ensures owner == ClientSide ==> handshakeOut == 0 && handshakeIn == 0
    {
      this.owner, this.messagesIn := owner, messagesIn;
      messagesOut := new TsQueue<Packet>();
      id, isOpen := 0, true;
      handshakeOut, handshakeIn, handshakeCheck := 0, 0, 0;
      posted, temporaryIn, readingBody := [], NewPacket(0), false;
      writes, challenge, sends, finished, handedUp := [], None, [], [], [];
      if owner == ServerSide {
        handshakeOut := clock;
        handshakeCheck := Handshake.Scramble(clock);
      }
    }

    method GetID() returns (r: Word)
      ensures r == id
    {
      r := id;
    }

    method IsConnected() returns (r: bool)
      ensures r == isOpen
    {
      r := isOpen;
    }

    method Close()
      modifies this`isOpen
      ensures !isOpen
    {
      isOpen := false;
    }

    /** The server end takes its id and starts writing its challenge; the read of the response is then
        outstanding. From here on the two halves are a link of Transport in its initial state. */
    method ConnectToClient(uid: Word)
      modifies this`id, this`writes
      ensures id == if owner == ServerSide && isOpen then uid else old(id)
      ensures Sending() ==
              if owner == ServerSide && isOpen then T.WriteGreeting(old(Sending()), Handshake.Image(handshakeOut))
              else old(Sending())
    {
      if owner == ServerSide {
        if isOpen {
          id := uid;
          WriteValidation();
        }
      }
    }

    // ---------- the write pump ----------

    method Send(p: Packet)
      modifies this`posted, this`sends
      ensures Sending() == T.PostSend(old(Sending()), p)
    {
      posted := posted + [p];
      sends := sends + [p];
    }

    method RunPosted()
      requires posted != []
      modifies this`posted, this`writes, messagesOut
      ensures Sending() == T.RunPosted(old(Sending()))
    {
      var p := posted[0];
      posted := posted[1..];
      var empty := messagesOut.Empty();
      messagesOut.PushBack(p);
      if empty {
        WriteHeader();
      }
    }

    method WriteHeader()
      requires messagesOut.deqQueue != []
      modifies this`writes
      ensures Sending() == T.WriteHeader(old(Sending()))
    {
      var front := messagesOut.Front();
      writes := writes + [T.HeaderOf(front, T.HeaderBytes(front))];
    }

    method WriteBody()
      requires messagesOut.deqQueue != []
      modifies this`writes
      ensures Sending() == T.WriteBody(old(Sending()))
    {
      var front := messagesOut.Front();
      writes := writes + [T.BodyOf(front, front.body)];
    }

    method PopSent()
      requires messagesOut.deqQueue != []
      modifies this`writes, this`finished, messagesOut
      ensures Sending() == T.PopSent(old(Sending()))
    {
      var sent := messagesOut.PopFront();
      finished := finished + [sent];
      var empty := messagesOut.Empty();
      if !empty {
        WriteHeader();
      }
    }

    /** The completion of write `i`, a header. */
    method OnHeaderWritten(ghost i: nat, ok: bool)
      requires i < |writes| && writes[i].HeaderOf? && messagesOut.deqQueue != []
      modifies this`writes, this`finished, this`isOpen, messagesOut
      ensures Sending() == if ok then T.Completed(old(Sending()), i) else T.Failed(old(Sending()), i)
    {
      writes := writes[..i] + writes[i + 1..];
      if ok {
        var front := messagesOut.Front();
        if |front.body| > 0 {
          WriteBody();
        } else {
          PopSent();
        }
      } else {
        Close();
      }
    }

    /** The completion of write `i`, a body. */
    method OnBodyWritten(ghost i: nat, ok: bool)
      requires i < |writes| && writes[i].BodyOf? && messagesOut.deqQueue != []
      modifies this`writes, this`finished, this`isOpen, messagesOut
      ensures Sending() == if ok then T.Completed(old(Sending()), i) else T.Failed(old(Sending()), i)
    {
      writes := writes[..i] + writes[i + 1..];
      if ok {
        PopSent();
      } else {
        Close();
      }
    }

    // ---------- the read pump ----------

    method AddToIncomingMessageQueue(ghost buf: seq<Byte>)
      modifies this`readingBody, this`handedUp, messagesIn
      ensures Receiving(buf) == T.HandUp(old(Receiving(buf)))
      ensures messagesIn.deqQueue ==
              old(messagesIn.deqQueue) + [OwnedPacket(if owner == ServerSide then this else null, temporaryIn)]
    {
      if owner == ServerSide {
        messagesIn.PushBack(OwnedPacket(this, temporaryIn));
      } else {
        messagesIn.PushBack(OwnedPacket(null, temporaryIn));
      }
      handedUp := handedUp + [temporaryIn];
      readingBody := false;
    }

    /** A read completes with an error. */
    method OnReadFailed(ghost buf: seq<Byte>)
      modifies this`isOpen
      ensures Receiving(buf) == T.ReadFailed(old(Receiving(buf)))
      ensures Sending() == old(Sending()).(open := false)
    {
      Close();
    }

    /** `bytes` is the header just read, `buf` what is still unread behind it. */
    method OnHeaderRead(bytes: seq<Byte>, ghost buf: seq<Byte>, ok: bool)
      requires ok ==> |bytes| == T.HEADER_SIZE
      modifies this`temporaryIn, this`readingBody, this`handedUp, this`isOpen, messagesIn
      ensures Receiving(buf)
           == if ok then T.HeaderRead(old(Receiving(bytes + buf))) else T.ReadFailed(old(Receiving(buf)))
      ensures Sending() == if ok then old(Sending()) else old(Sending()).(open := false)
      ensures messagesIn.deqQueue == old(messagesIn.deqQueue) +
              (if !ok || temporaryIn.size > 0 then []
               else [OwnedPacket(if owner == ServerSide then this else null, temporaryIn)])
    {
      if !ok {
        OnReadFailed(buf);
        return;
      }
      assert (bytes + buf)[..4] == bytes[..4] && (bytes + buf)[4..8] == bytes[4..8]
        && (bytes + buf)[T.HEADER_SIZE..] == buf;
      temporaryIn := Packet(Decode(bytes[..4]), Decode(bytes[4..]), temporaryIn.body);
      if temporaryIn.size > 0 {
        temporaryIn := temporaryIn.(body := T.Resized(temporaryIn.body, temporaryIn.size));
        readingBody := true;
      } else {
        AddToIncomingMessageQueue(buf);
      }
    }

    method OnBodyRead(bytes: seq<Byte>, ghost buf: seq<Byte>, ok: bool)
      requires ok ==> |bytes| == |temporaryIn.body|
      modifies this`temporaryIn, this`readingBody, this`handedUp, this`isOpen, messagesIn
      ensures Receiving(buf)
           == if ok then T.BodyRead(old(Receiving(bytes + buf))) else T.ReadFailed(old(Receiving(buf)))
      ensures Sending() == if ok then old(Sending()) else old(Sending()).(open := false)
      ensures messagesIn.deqQueue == old(messagesIn.deqQueue) +
              if ok then [OwnedPacket(if owner == ServerSide then this else null, temporaryIn)] else []
    {
      if !ok {
        OnReadFailed(buf);
        return;
      }
      assert (bytes + buf)[..|bytes|] == bytes && (bytes + buf)[|bytes|..] == buf;
      temporaryIn := temporaryIn.(body := bytes);
      AddToIncomingMessageQueue(buf);
    }

    // ---------- the handshake ----------

    method WriteValidation()
      modifies this`writes
      ensures Sending() == T.WriteGreeting(old(Sending()), Handshake.Image(handshakeOut))
      ensures writes == old(writes) + [T.Greet(Handshake.Image(handshakeOut))]
    {
      writes := writes + [T.Greet(Handshake.Image(handshakeOut))];
    }

    /** The completion of write `i`, the handshake bytes; a client then starts to read headers. */
    method OnGreetingWritten(ghost i: nat, ok: bool) returns (reading: bool)
      requires i < |writes| && writes[i].Greet?
      modifies this`writes, this`isOpen
      ensures Sending() == if ok then T.Completed(old(Sending()), i) else T.Failed(old(Sending()), i)
      ensures reading == (ok && owner == ClientSide)
    {
      writes := writes[..i] + writes[i + 1..];
      reading := false;
      if ok {
        reading := owner == ClientSide;
      } else {
        Close();
      }
    }

    /** ReadValidation, with `value` in the eight bytes just read and `buf` still unread behind them: the
        server checks the response, the client starts writing its own. */
    method OnValidationRead(value: bv64, ghost buf: seq<Byte>, ok: bool) returns (validated: bool)
      modifies this`handshakeIn, this`handshakeOut, this`isOpen, this`challenge, this`writes
      ensures !ok ==>
                !validated && handshakeOut == old(handshakeOut) && Receiving(buf) == T.ReadFailed(old(Receiving(buf)))
                && Sending() == old(Sending()).(open := false)
      ensures ok ==> handshakeIn == value
      ensures ok ==>
                Receiving(buf).(open := old(isOpen)) == T.GreetingRead(old(Receiving(Handshake.Image(value) + buf)))
      ensures ok && owner == ServerSide ==>
                validated == (value == handshakeCheck) && handshakeOut == old(handshakeOut)
                && Sending() == old(Sending()).(open := old(isOpen) && validated)
      ensures ok && owner == ClientSide ==>
                !validated && handshakeOut == Handshake.Scramble(value)
                && Sending() == T.WriteGreeting(old(Sending()), Handshake.Image(handshakeOut))
                && writes == old(writes) + [T.Greet(Handshake.Image(handshakeOut))]
    {
      validated := false;
      if !ok {
        OnReadFailed(buf);
        return;
      }
      assert (Handshake.Image(value) + buf)[..T.GREETING_SIZE] == Handshake.Image(value);
      assert (Handshake.Image(value) + buf)[T.GREETING_SIZE..] == buf;
      handshakeIn := value;
      challenge := Some(Handshake.Image(value));
      if owner == ServerSide {
        if handshakeIn == handshakeCheck {
          validated := true;
        } else {
          Close();
        }
      } else {
        handshakeOut := Handshake.Scramble(handshakeIn);
        WriteValidation();
      }
    }
  }
}
