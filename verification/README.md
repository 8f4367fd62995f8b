# Verification of the multiplayer stack

This project models the networking half of the repository and proves what its protocol promises: the byte
packet, the framed connection, the relay server, the client's bookkeeping and the game-packet codec, and
the path of a game packet through all of them.

    dafny verify dfyconfig.toml

## How the model is laid out

Code that updates objects in place is modelled by classes with the same fields, and each of their methods is
proved to compute a function on values; the properties are then proved about those functions. Concurrency is
modelled by state machines whose steps are the completion handlers and the separately locked regions; a
property of a machine is proved for every reachable state, or for every run.

| layer | files | what is there |
|---|---|---|
| bytes | `Words`, `Packets` | 32-bit little-endian words; the packet and its two stream operators |
| connection | `TsQueue`, `Handshake`, `Transport`, `Framing`, `Delivery`, `Overtaking`, `Connection` | one direction of a connection as a machine (`Transport`), what its pumps keep and exactly when framing holds (`Framing`), that nothing gets stuck (`Delivery`), what a packet sent too early does (`Overtaking`), the connection object whose handlers are the machine's steps (`Connection`) |
| server | `Hub`, `Server` | the server's operations on values in step-by-step and closed form (`Hub`), the server object (`Server`) |
| protocol | `ClientViews`, `Relay`, `RelayTokens`, `RelayTraffic`, `RelayCausality`, `RelayOrder`, `RelayRoster`, `RelayTheorems`, `RelayAnnouncements`, `RelayKnowledge`, `RelayRuns` | one server, any number of clients, a FIFO channel in each direction, the shared inbound queue; the invariants, the main results, who is told of whom and how often (`RelayAnnouncements`), who therefore knows whom (`RelayKnowledge`), and concrete runs |
| client | `GameMessages`, `ClientConnections`, `Client`, `ClientBuffers` | packing and unpacking, the peer list, the client object, and the two threads that share its buffers |
| game packets | `GamePackets`, `GameClient` | printer and parser, collecting and splitting, handing packets to readers |
| all of it | `EndToEnd`, `System`, `Progress`, `Reception` | what a client makes of the packets on its channel (`EndToEnd`); the protocol running over two byte links per connection, with the handshake (`System`); that nothing in it gets stuck and that the links rule out no run of the protocol (`Progress`); what the game of one client is handed of another's events, through both links, the relay and the two threads (`Reception`) |

The `Hub` functions are the meeting point of the two views of the server: the methods of `Servers.Server`
are proved to compute them, and the steps of `Relay` are made of them. `ClientStates.HandleState` plays the
same part for the client. `Systems.World` joins the protocol and the links: every packet the protocol puts on
a channel is sent on a link of `Transport`, and each end acts on nothing but what its link hands up. A client
answers the challenge that it has read, which need not be the one it was sent.

Every inductive lemma is marked `{:induction false}`, and so is every other one that Dafny would try induction
on: each proof names the instances it needs.

## What was found

Most promises hold as stated. These hold only under a condition, which is proved exact, and a run that breaks
the promise is given where the condition does not show one.

* A flush of `m_garbageIDs` pushes to the vector it is walking when it meets a registered closed socket, and
  the `clear` that follows then forgets that id: no peer is ever told to remove it
  (`Hubs.FlushDefinedExactly`, `Hubs.FlushForgets`, and a run that gets there, `RelayRuns.FlushCanForget`).
* The closing loop of a registration erases from the vector it is walking when the registering socket is
  closed and has already left the deque (`Hubs.RegisterDefinedExactly`, `RelayRuns.RegistrationCanBeUndefined`).
* Registrations that overlap leave the later client with a peer listed twice. In every run, a registered open
  client agrees with the server exactly if it had not been told of a connected id when its Register was
  handled (`RelayTheorems.RosterAgreement`, `RelayRuns.OverlapDuplicates`).
* A game packet whose sender has left `m_clientsIDs` by the time it is relayed can reach a client that was
  never told of the sender. AddClient of the sender comes first exactly if the sender was registered while
  the client was connected, or the client was registered while the sender was listed and connected
  (`RelayAnnouncements.IntroducedExactly`, `RelayRuns.UnannouncedSender`). A client with an agreeing roster
  knows the sender exactly if the server still lists it (`RelayTheorems.KnownExactlyIfListed`). Any client,
  registered or not and whatever its roster, knows the sender exactly if it has been introduced to it, and
  twice if the server no longer lists it: one removal takes out one of two entries
  (`RelayKnowledge.KnownExactly`).
* A header that announces no body is handed up with the body of an earlier message, exactly if there was one
  (`Framing.StaleBodyExactly`). It happens: an AddClient is broadcast to connections that are not validated
  yet, and Accepted then arrives with the four bytes of that id (`RelayRuns.ToldBeforeAccepted`,
  `Delivery.AcceptedArrivesWithABody`).
* The same broadcast can start the server's write pump while its handshake write is still outstanding, because
  `Send` does not look at it. Running a posted packet can mislead the receiver if and only if handshake bytes
  are still to leave (`Overtaking.GuardIsExact`). If `early` header bytes leave before the last handshake
  bytes `g`, the receiver is misled unless `early + g == g + early` (`Overtaking.OvertakingMisleadsExactly`);
  a whole header in front is taken for the challenge, and the answer is rejected unless the two are the same
  bytes (`Overtaking.HeaderIsTakenForChallenge`). Whatever the challenge, the broadcast has such a
  continuation (`Overtaking.EarlyBroadcastMisleads`). Over both links of a connection, the answer that the
  server reads is the expected one exactly if the client had read the challenge issued to it
  (`Systems.HandshakeExactly`). Without overtaking, framing is correct
  (`Framing.FramingIsCorrect`); in any reachable state it is intact exactly if the bytes read so far are the
  beginning of what should have been sent (`Framing.FramingExactly`).
* Of the snapshots that a clear erases, exactly one has been read, the newest one pushed before the read. So a
  peer's newest snapshot is lost exactly if it arrives between the read and the clear of its stack
  (`ClientBuffers.OneIsReadOfThoseCleared`, `ClientBuffers.NewestIsReadExactly`, `ClientBuffers.RaceHappens`).
* The index at the end of a snapshot names its sender exactly if no peer in front of it has been removed since
  the push (`ClientBuffers.TagIsCurrentExactly`, `ClientBuffers.TagGoesStale`).
* The parser stops at the first flag in reader position, so it recovers a list of packets exactly if none of
  them has several readers, a flag as its reader, or closing flags of its own before the end
  (`GamePackets.RecoveredExactly`); of the two closing flags of a stream, one stays unread.

Apart from these, `SendPacketClient` on a closed socket resets its own parameter, so the deque keeps the entry.

## Model

| member | source | states |
|---|---|---|
| Words.DecodeEncode | NetworkManager/packet.h:44-54 | A 32-bit word copied into the body byte by byte is read back as the same word. |
| Words.EncodeDecode | NetworkManager/packet.h:44-54 | Any four bytes are the image of the word they are read as. |
| Words.LowByteFirst | NetworkManager/packet.h:39-46 | One more byte at the low end of a word is one more byte in front of its image. |
| Packets.StackDiscipline | NetworkManager/packet.h:38-58 | For any mix of pushes and pops of any widths in which each pop takes the field on top, the values come back last in first out, the body below is untouched, and the type never changes. |
| Packets.PushAgrees | NetworkManager/packet.h:39-46 | After a push the header size is the body size, while that fits 32 bits. |
| Packets.PopAgrees | NetworkManager/packet.h:50-57 | After a pop the header size is the body size, while that fits 32 bits. |
| Packets.PopUndoesPushWord | NetworkManager/packet.h:38-58 | A pop of a word directly after a push of one returns it and restores the body. |
| Packets.IdPacketCarries | NetworkServer/Server.cpp:77-79 | A packet built around one id has a four-byte body from which that id is popped. |
| Packets.PacketBuffer.PushBytes | NetworkManager/packet.h:39-47 | The in-place push extends the body by the bytes and rewrites the header size. |
| Packets.PacketBuffer.PopBytes | NetworkManager/packet.h:50-58 | The in-place pop takes the last bytes off the body and rewrites the header size. |
| TsQueues.TsQueue.PushBack | NetworkManager/tsqueue.h:46-52 | The item goes behind everything queued. |
| TsQueues.TsQueue.PopFront | NetworkManager/tsqueue.h:30-36 | The oldest item leaves; what is left is the rest in order. |
| TsQueues.TsQueue.Empty | NetworkManager/tsqueue.h:62-66 | True exactly when nothing is queued. |
| Handshake.NibbleSwapIsInvolution | NetworkManager/connection.h:262 | Swapping the nibbles of every byte twice changes nothing. |
| Handshake.ScrambleTradesNibbles | NetworkManager/connection.h:259-264 | The challenge 0 is answered with 0x2D0411301ED9FA97, and every other one with that answer after trading the two nibbles of every byte of the challenge and combining the two by exclusive or. |
| Handshake.ScrambleIsBijection | NetworkManager/connection.h:259-264 | Scrambling is a bijection on 64-bit words, with an inverse on both sides. |
| Handshake.ResponseFitsOneChallenge | NetworkManager/connection.h:224-249 | A client that follows the protocol is validated for every challenge, and any response is accepted for exactly one challenge. |
| Handshake.ImageIsInjective | NetworkManager/connection.h:207-227 | The eight bytes of a handshake word in memory determine the word. |
| Handshake.ByteOfImage | NetworkManager/connection.h:207-210 | Byte k in memory is the lowest byte of what is left of the word above its first k bytes. |
| Handshake.ImageExample | NetworkManager/connection.h:207-210 | The word 0x0807060504030201 lies in memory as the bytes 1 to 8. |
| Handshake.ImageIsOnto | NetworkManager/connection.h:224-227 | Whatever eight bytes are read, they are the image of a handshake word. |
| Handshake.OtherBytesAreRejected | NetworkManager/connection.h:224-249 | The answer to the bytes a client took for its challenge is accepted exactly if they are the bytes of the challenge. |
| Framing.FramingIsCorrect | NetworkManager/connection.h:91-205 | In every run whose pump waits for the handshake bytes, whatever the interleaving of sends, partial writes, arrivals, reads and failures, the challenge is the one sent, and the messages handed up are the first messages sent, in order, with equal headers and equal first `size` body bytes. |
| Framing.DrainedMeansDelivered | NetworkManager/connection.h:91-205 | When nothing is posted, queued, on the wire or unread, every message sent has been handed up. |
| Framing.PumpIsSound | NetworkManager/connection.h:91-153 | In every run, with every call of WriteHeader and WriteBody adding an outstanding write: the pump never has two, on an open socket it has one exactly while the queue is nonempty, it is of the front message, and finished messages, queue and posted lambdas are all sends in order. |
| Framing.FrontIsStable | NetworkManager/connection.h:106-153 | No step changes the front message while it is being written; only the completion of its last write removes it. |
| Framing.StaleBodyExactly | NetworkManager/connection.h:162-170 | While framing is intact, a message handed up equals the one sent exactly if it has a body or no message before it had one. |
| Framing.HeaderRoundTrip | NetworkManager/connection.h:106-164 | Any eight header bytes are the image of the two words they are read as. |
| Framing.FramingExactly | NetworkManager/connection.h:91-205 | In every reachable state, with the handshake write overtaken or not, challenge, messages and current header are as sent if and only if the bytes read are the beginning of the handshake bytes followed by all frames in order. |
| Framing.FailedReadIsTheLast | NetworkManager/connection.h:172-193 | Whatever happens after a read has failed, no further message is handed up and no handshake is read. |
| Framing.FailedWriteIsTheLast | NetworkManager/connection.h:126-152 | Whatever happens after a write has failed, no further byte leaves and no further message is finished. |
| Framing.OnTheWire | NetworkManager/packet.h:10-46 | The bytes of a packet without a body, and of one that carries an id: type, size and body, each word least significant byte first. |
| Framing.ProtocolOnTheWire | NetworkManager/PacketType.h:7-21 | The bytes of every packet of the protocol, with the numbers of their types. |
| Delivery.NothingGetsStuck | NetworkManager/connection.h:91-205 | From every state of such a run in which both ends are open, steps of the pumps alone lead to a state in which every message sent has been handed up. |
| Delivery.AnyListIsDelivered | NetworkManager/connection.h:91-205 | Every list of honest messages is handed up in full in some run, under any challenge. |
| Delivery.AcceptedArrivesWithABody | NetworkManager/connection.h:162-170 | Sent after an AddClient, Accepted can arrive with the four bytes of that id as its body. |
| Overtaking.OvertakingMisleadsExactly | NetworkManager/connection.h:91-112 | When header bytes leave before the last handshake bytes, for every challenge, packet and number of bytes, the receiver is misled if and only if the two byte strings do not commute. |
| Overtaking.HeaderIsTakenForChallenge | NetworkManager/connection.h:224-249 | A whole header in front of the challenge is read as the challenge, whatever its bytes, and the answer to it is accepted exactly if they are the same bytes. |
| Overtaking.GuardIsExact | NetworkManager/connection.h:91-103 | In a run that was orderly so far, running a posted packet with a one-byte type can mislead the receiver if and only if handshake bytes are still to leave. |
| Overtaking.EarlyBroadcastMisleads | NetworkManager/server_interface.h:98-104 | A connection that is sent an AddClient before its challenge has left can be misled, whatever the challenge. |
| Connections.Connection.constructor | NetworkManager/connection.h:27-41 | A new connection is idle in both directions; a server end holds its challenge and the expected response. |
| Connections.Connection.ConnectToClient | NetworkManager/connection.h:50-61 | A server end with an open socket takes the id and starts the write of its challenge; any other changes nothing. |
| Connections.Connection.Send | NetworkManager/connection.h:91-103 | Posts the packet, whatever the state of the socket. |
| Connections.Connection.RunPosted | NetworkManager/connection.h:94-102 | The posted lambda queues its packet and starts the pump exactly if the queue was empty; it is the machine's step. |
| Connections.Connection.OnHeaderWritten | NetworkManager/connection.h:109-131 | The completion of a header write is the machine's step, the failure closes the socket. |
| Connections.Connection.OnBodyWritten | NetworkManager/connection.h:137-152 | The completion of a body write is the machine's step, the failure closes the socket. |
| Connections.Connection.OnHeaderRead | NetworkManager/connection.h:158-171 | The completion of a header read is the machine's step; a message is queued exactly if no body follows; a failure closes the socket and queues nothing. |
| Connections.Connection.OnBodyRead | NetworkManager/connection.h:183-188 | The completion of a body read is the machine's step and queues the message; a failure closes the socket and queues nothing. |
| Connections.Connection.AddToIncomingMessageQueue | NetworkManager/connection.h:197-205 | The server queues the message with its connection, a client with none. |
| Connections.Connection.OnValidationRead | NetworkManager/connection.h:227-249 | The server validates exactly the expected response and closes the socket on any other; a client prepares its response; a failure closes the socket. |
| Connections.Connection.OnReadFailed | NetworkManager/connection.h:172-176 | A read that completes with an error closes the socket, which is the machine's step. |
| Connections.Connection.OnGreetingWritten | NetworkManager/connection.h:207-221 | The completion of the handshake write is the machine's step; a client then reads headers, a failure closes the socket. |
| Connections.Connection.WriteValidation | NetworkManager/connection.h:207-210 | One more write is outstanding, of the eight bytes of the handshake word. |
| Hubs.SendAllEffect | NetworkManager/server_interface.h:95-116 | One broadcast sends the packet exactly once to every open connection but the ignored one, takes every closed one out of the deque, and appends exactly the registered ones among those to the garbage, in the order of the deque. |
| Hubs.FlushEffect | NetworkServer/Server.cpp:53-65 | A defined flush sends every open connection one removal notice per garbage id, in order, empties the garbage and keeps the registered ids. |
| Hubs.FlushDefinedExactly | NetworkServer/Server.cpp:56-64 | The flush leaves the vector it walks alone if and only if it is empty or no registered socket is closed. |
| Hubs.FlushForgets | NetworkServer/Server.cpp:53-65 | Otherwise every registered id with a closed socket ends up in neither vector, and was not in the garbage before. |
| Hubs.RegisterEffect | NetworkServer/Server.cpp:70-100 | A defined registration lists the client unless its socket is closed, drops the other closed ones to the garbage, and keeps the vectors well-formed. |
| Hubs.RegisterSends | NetworkServer/Server.cpp:70-100 | To each open connection a registration sends one AddClient; to the client itself AssignID, AddClient of itself, and AddClient of every id that stays registered. |
| Hubs.RegisterDefinedExactly | NetworkServer/Server.cpp:91-97 | The closing loop leaves the vector it walks alone if and only if the registering socket is open or still in the deque. |
| Hubs.RegisteredDequeIsOpen | NetworkManager/server_interface.h:98-115 | After a defined registration only open connections are in the deque. |
| Hubs.RelayEffect | NetworkServer/Server.cpp:107-118 | A relayed packet goes once to every open connection except its sender. |
| Hubs.ReceiveEffect | NetworkServer/Server.cpp:51-122 | The vectors after any packet: a defined call ends with the registered ids of open sockets, and with exactly the ones found closed as garbage, in the order of the deque. |
| Hubs.ReceiveDeque | NetworkManager/server_interface.h:98-115 | Whom a handled packet takes out of the deque: the closed connections, if it causes a broadcast; nobody else leaves and nobody changes places. |
| Hubs.ReceiveDelta | NetworkServer/Server.cpp:51-122 | What any packet makes the server send to any connection: first the pending removal notices, then the welcome, the relayed packet or nothing. |
| Hubs.ReadyIsWalkable | NetworkServer/Server.cpp:51-122 | A packet that registers no id twice and meets the two loop conditions never makes a loop change the vector it walks. |
| Servers.Server.constructor | NetworkServer/Server.cpp:10-16 | The server starts with no ids, no connections and id counter 10000. |
| Servers.Server.OnAccept | NetworkManager/server_interface.h:50-77 | A connection is approved exactly below eight registered ids; an approved one gets the next id, an empty channel and the given challenge, and starts to write it; a denied one changes nothing. |
| Servers.Server.OnClientConnect | NetworkServer/Server.cpp:19-26 | Approves exactly below eight registered ids. |
| Servers.Server.OnClientValidated | NetworkServer/Server.cpp:28-35 | Adds one Accepted to this client's channel and nothing to any other. |
| Servers.Server.OnClientDisconnect | NetworkServer/Server.cpp:37-49 | Moves a registered id from the one vector to the end of the other, behind everything there; null or unregistered changes nothing. |
| Servers.Server.EraseNulls | NetworkManager/server_interface.h:113-115 | The erase keeps the other entries in order, and changes nothing when there is no null. |
| Servers.ErasedEntries | NetworkManager/server_interface.h:98-115 | The entries left after resetting and erasing are the connections of the ids that stay, in order. |
| Servers.Server.SendPacketClient | NetworkManager/server_interface.h:80-93 | Sends on an open socket, disconnects on a closed one, does nothing for null, and leaves the deque as it was in every case. |
| Servers.Server.SendPacketAllClients | NetworkManager/server_interface.h:95-116 | Walking, resetting and erasing in place computes the broadcast of the value model, and the deque shows what is left of it. |
| Servers.Server.FlushGarbage | NetworkServer/Server.cpp:53-65 | The loop over the garbage computes the flush of the value model. |
| Servers.Server.RegisterClient | NetworkServer/Server.cpp:70-100 | The registration case computes the registration of the value model, for a listed id as well. |
| Servers.Server.OnReceivePacket | NetworkServer/Server.cpp:51-122 | Every case of the handler computes the value model's result on the whole server, whenever no loop changes the vector it walks. |
| Servers.Server.Update | NetworkManager/server_interface.h:118-131 | The counted loop handles the first packets of the queue, at most as many as asked for, in order, and leaves the rest queued. |
| Servers.ReadyQueuesAreHandled | NetworkManager/server_interface.h:118-131 | A queue of packets that each register no id twice and meet the two loop conditions is handled in full and leaves the vectors well-formed. |
| GameMessages.RetrieveInvertsPack | NetworkClient/Client.cpp:199-236 | For every vector and sender id, unpacking what was packed gives the vector and the sender's index and empties the body; for an unknown sender it gives nothing and takes only the sender id off. |
| GameMessages.PopWordsUndoPush | NetworkClient/Client.cpp:211-228 | Words pushed last to first are popped first to last, and the packet is as before. |
| GameMessages.PackShape | NetworkClient/Client.cpp:220-236 | A packed packet has its kind, an honest size of four bytes per word plus eight, and its sender's id on top. |
| GameMessages.PackedBody | NetworkClient/Client.cpp:220-236 | The body of a packed packet is the images of the words with the last one first, then their number, then the sender. |
| GameMessages.FitsExactly | NetworkClient/Client.cpp:220-236 | The size in the header of a packed packet is that of its body exactly if the byte count fits 32 bits. |
| GameMessages.PackPacket | NetworkClient/Client.cpp:220-235 | The counting-down loop builds that packet. |
| GameMessages.PopAll | NetworkClient/Client.cpp:211-215 | The pop loop computes the words and the rest of the packet. |
| ClientConnections.IndexOfIsFirst | NetworkClient/ClientConnection.cpp:17-26 | The index is 0xFFFFFFFF exactly for an absent id, and otherwise the first position with that id. |
| ClientConnections.IndexInverts | NetworkClient/ClientConnection.cpp:17-26 | With unique ids the index of every entry's id is its position. |
| ClientConnections.RemovalRefinesMap | NetworkClient/ClientConnection.cpp:33-45 | In a list of unique ids, a removal deletes one id from the map of ids to snapshot stacks, leaves every other stack, moves exactly the later ids down by one, and changes nothing for an absent id. |
| ClientConnections.AdditionRefinesMap | NetworkClient/ClientConnection.cpp:27-32 | Adding an absent id adds it behind all others with no snapshots and keeps every other stack and index. |
| ClientConnections.RemovedIds | NetworkClient/ClientConnection.cpp:33-45 | On the ids alone, a removal takes out the first occurrence. |
| ClientConnections.ClientConnection.Assign | NetworkClient/ClientConnection.cpp:7-15 | Assignment copies id and stack, and is harmless on itself. |
| ClientConnections.ClientConnection.GetPacket | NetworkClient/ClientConnection.cpp:52-58 | Returns the newest snapshot, or an empty one. |
| ClientConnections.Registry.GetClientIndex | NetworkClient/ClientConnection.cpp:17-26 | The search loop computes the index. |
| ClientConnections.Registry.AddClient | NetworkClient/ClientConnection.cpp:27-32 | Appends a fresh entry, without looking for duplicates. |
| ClientConnections.Registry.Erase | NetworkClient/ClientConnection.cpp:40 | Assigning the later slots forward and dropping the last one removes exactly the given entry. |
| ClientConnections.Registry.RemoveClient | NetworkClient/ClientConnection.cpp:33-45 | Removes the first entry with the id and reports whether there was one. |
| ClientConnections.Registry.GetAllStatePackets | NetworkClient/ClientConnection.cpp:65-74 | Returns every peer's newest snapshot in list order and empties every stack. |
| ClientStates.HandleStateRefinesView | NetworkClient/Client.cpp:253-339 | Whatever the packet, the ids in the peer list and the client's flags move as the membership protocol says; snapshots and events never touch them. |
| ClientStates.RetrievedIsTagged | NetworkClient/Client.cpp:199-219 | What is retrieved ends with the position of its sender, and is empty exactly if the sender is unknown. |
| Clients.Client.SendSpecificPacket | NetworkClient/Client.cpp:220-236 | On an open socket sends the packed vector under the client's id, on a closed one nothing. |
| Clients.Client.RetrieveGameMsgs | NetworkClient/Client.cpp:199-219 | Computes the retrieval of the value model. |
| Clients.Client.HandlePacket | NetworkClient/Client.cpp:253-339 | Every case computes the value model's result on id, flags, peers and event queue, and only Accepted is answered, with one Register. |
| Clients.Client.GetGameEventPackets | NetworkClient/Client.cpp:145-158 | Drains the whole queue in order. |
| Clients.Client.GetAllPackets | NetworkClient/Client.cpp:167-179 | Returns all queued events and then every peer's newest snapshot, and empties both buffers. |
| Clients.Client.ProcessEachPacket | NetworkClient/Client.cpp:180-196 | Skips empty vectors and reads each other one with its last word as player index, in order. |
| Clients.ClosedGameCallsNobody | GameClientManager/GameClientManager.h:16-19 | With the game closed no reader is called, whatever has come in. |
| Clients.OpenGameCalls | NetworkClient/Client.cpp:180-196 | With the game open, a vector is parsed without its last word, and that word is the player index of every call; an empty vector makes none. |
| Clients.Client.ProcessPacketRound | NetworkClient/Client.cpp:76-97 | A round hands all events and then the newest snapshots to the readers and empties both buffers; while the client waits, has stopped or is not connected, it does nothing. |
| Clients.Client.SendPacketRound | NetworkClient/Client.cpp:98-125 | A round sends the entities' snapshot stream and then their event stream, each as one packet of its kind and neither if empty; while the client waits, has stopped or is not connected, or with the game closed, it sends nothing. |
| Clients.EventsComeFirst | NetworkClient/Client.cpp:167-196 | Processing a round makes all reads for its events before any for its snapshots. |
| ClientBuffers.DeliverIsHandlePacket | NetworkClient/Client.cpp:253-339 | A delivery step of the two-thread machine changes the client's state exactly as the handler does. |
| ClientBuffers.UndisturbedWalkIsGetAllPackets | NetworkClient/Client.cpp:167-179 | A walk that nothing interrupts has the effect of one call: all events, then the newest snapshots, both buffers empty. |
| ClientBuffers.SnapshotsAreFresh | NetworkClient/ClientConnection.cpp:47-74 | For every interleaving, the snapshots read for one peer are strictly increasing in push order, and its stack holds exactly those pushed since the last clear. |
| ClientBuffers.ReadTakesTheNewest | NetworkClient/ClientConnection.cpp:52-58 | What is read is the newest snapshot pushed by then, and nothing is read exactly if all have been cleared. |
| ClientBuffers.RacingSnapshotIsLost | NetworkClient/ClientConnection.cpp:65-73 | A snapshot pushed between the read and the clear of its stack is cleared without having been read. |
| ClientBuffers.OneIsReadOfThoseCleared | NetworkClient/ClientConnection.cpp:65-73 | Whatever is delivered between the read and the clear of a stack, of all snapshots the clear erases exactly the newest one pushed before the read has been read. |
| ClientBuffers.NewestIsReadExactly | NetworkClient/ClientConnection.cpp:65-73 | The newest snapshot a clear erases has been read if and only if none arrived between the read and the clear. |
| ClientBuffers.RaceHappens | NetworkClient/ClientConnection.cpp:65-73 | A reachable state in which a stack has been read and the next snapshot for it arrives before the clear. |
| ClientBuffers.EventsAreConserved | NetworkClient/Client.cpp:145-196 | For every interleaving, the events drained so far followed by the queue are all events pushed, in order. |
| ClientBuffers.NoRoundWhileWaiting | NetworkClient/Client.cpp:84-89 | In every reachable state in which a round has been started, the client is no longer waiting. |
| ClientBuffers.TagIsCurrentExactly | NetworkClient/Client.cpp:328-333 | The last word of every snapshot is its peer's current index plus the number of removals that have moved the peer since the push; it names the peer exactly if there was none. |
| ClientBuffers.TagGoesStale | NetworkClient/ClientConnection.cpp:33-45 | A reachable state in which a stored snapshot names position 1 in a list of one peer. |
| ClientBuffers.SlotsMoveByRemovalsOnly | NetworkClient/ClientConnection.cpp:33-45 | A step moves a peer exactly if it removes one in front of it, and by one position. |
| ClientBuffers.MovesSlotsExactly | NetworkClient/ClientConnection.cpp:27-45 | What the walk excludes is exactly the deliveries that change the number of peers. |
| ClientBuffers.RoundsAreComplete | NetworkClient/ClientConnection.cpp:65-74 | A round reads the newest snapshot of every peer once: it can end exactly when there is one for each. |
| GamePackets.GetPacket | GameClientManager/GamePacket.h:107-150 | Builds the printed form word by word: nothing without data or readers, flags around several readers, and two closing flags for a last packet. |
| GamePackets.PrintedForm | GameClientManager/GamePacket.h:107-155 | Where each word of a printed packet is: read type, readers (several of them between flags), type, size, data, and two flags behind a last packet. |
| GamePackets.PacketsToGamePackets | GameClientManager/GamePacket.h:158-238 | The loop with its two flag variables computes the recursive parser, including what it leaves in the vector, and ends. |
| GamePackets.TakePacket | GameClientManager/GamePacket.h:23-37 | One packet is read and exactly its words are erased. |
| GamePackets.ParseShrinks | GameClientManager/GamePacket.h:174-236 | What the parser leaves is a proper end of the stream. |
| GamePackets.ParseInvertsPrint | GameClientManager/GamePacket.h:107-238 | For all single-reader packets, parsing their printed forms followed by a flag and anything returns exactly the packets and leaves exactly the rest, whatever words their types and data contain. |
| GamePackets.ParsedAreSingle | GameClientManager/GamePacket.h:174-238 | Whatever stream is parsed, every packet that comes out is temporary, not a last one, and has one ordinary reader. |
| GamePackets.ParsePrinted | GameClientManager/GamePacket.h:158-238 | For arbitrary packets, parsing returns the ones in front of the first that blocks the parser. |
| GamePackets.RecoveredExactly | GameClientManager/GamePacket.h:174-221 | All packets survive if and only if none blocks the parser and only the last one printed carries closing flags. |
| GameClient.CollectPackets | GameClientManager/GameClientManager.h:51-63 | Keeps the packets with data, in the entities' order. |
| GameClient.SplitPackets | GameClientManager/GameClientManager.h:65-78 | Appends each packet's words to the vector of its read type, in order. |
| GameClient.WritePacket | GameClientManager/GameClientManager.h:34-86 | With the game open, both vectors get the stream of their read type, 0 for snapshots and 1 for events, and two flags unless empty; with the game closed, only a nonempty snapshot vector is closed. |
| GameClient.StreamsFollowEntities | GameClientManager/GameClientManager.h:51-78 | The stream of a list of entities is the streams of its parts one after the other, for one entity its packets are taken as they are, and for one packet of the read type the stream is its printed form without the first word. |
| GameClient.SplitIsStable | GameClientManager/GameClientManager.h:51-86 | Each stream parses back to the nonempty single-reader packets of its read type in their order; it is empty exactly if there are none, and otherwise ends in two flags of which one stays. |
| GameClient.SplitRecovers | GameClientManager/GameClientManager.h:51-86 | For arbitrary packets, each stream parses back to what the parser can get past. |
| GameClient.ReadPacket | GameClientManager/GameClientManager.h:16-33 | Hands every parsed packet to each of its readers in order with the player index; nothing with the game closed. |
| GameClient.CallsAppend | GameClientManager/GameClientManager.h:26-32 | The calls for a list of packets are those for its parts, one after the other. |
| GameClient.CallsOfOne | GameClientManager/GameClientManager.h:26-32 | The calls for one packet are one for each of its readers, in order, with the packet and the player index. |
| RelayTheorems.SingleToken | NetworkServer/Server.cpp:28-82 | In every reachable state no connection has caused two Registers, the two id vectors are duplicate-free and disjoint, and no channel carries two removals of one id. |
| RelayTheorems.NeverReturns | NetworkServer/Server.cpp:37-82 | In every run, an id that has left `m_clientsIDs` never comes back. |
| RelayTheorems.WalkedAsAccepted | NetworkManager/server_interface.h:50-116 | In every reachable state the deque holds the connections in the order of acceptance, and so do the removals that wait to be announced. |
| RelayTheorems.OpenClientIsNotRemoved | NetworkClient/Client.cpp:310-321 | An open client is never sent its own removal and never stops its threads on that account. |
| RelayTheorems.NextPacketIsReady | NetworkServer/Server.cpp:51-122 | In every reachable state the server's vectors are well-formed and the next packet registers no id twice. |
| RelayTheorems.OnlyTheAdmittedAreRead | NetworkManager/connection.h:231-243 | Packets are taken only from validated connections, connections are validated and read only while their sockets are open, and the server accepts just below eight registered ids. |
| RelayTheorems.SendersHoldTheirId | NetworkClient/Client.cpp:98-120 | A client sends a game packet only while it holds the id the server assigned to it and announced, and the packet ends with that id. |
| RelayTheorems.GameAfterIntroduction | NetworkServer/Server.cpp:70-118 | On every channel, a game packet of a registered sender that comes after the receiver's AssignID comes after AddClient of the sender. |
| RelayTheorems.RelayedAfterIntroduction | NetworkServer/Server.cpp:107-118 | When a game packet of a listed sender is relayed to an open client that has been told its id, AddClient of the sender is already on the channel. |
| RelayTheorems.KnownExactlyIfListed | NetworkClient/Client.cpp:199-206 | A registered client whose roster agrees will find the sender of a relayed packet if and only if the server still lists the sender. |
| RelayTheorems.RelayIsExact | NetworkServer/Server.cpp:107-118 | The game packets of one client on another's channel are a contiguous stretch of what it sent, each once and in order, from the first one handled after the receiver was accepted and, while the receiver is open, up to the last one handled. |
| RelayTheorems.NeverBackToSender | NetworkManager/server_interface.h:100-104 | No client receives its own game packets. |
| RelayTheorems.RosterAgreement | NetworkServer/Server.cpp:37-100 | In every run, the Register of a registered open client was handled at some step, and the client, once it handles what is in flight, ends with the server's ids without its own and without those whose removal is due, in order and without duplicates, if and only if at that step nothing sent to it made it list a connected id. |
| RelayTheorems.RosterAgreementTidy | NetworkClient/Client.cpp:287-327 | In every run whose registrations do not overlap, every registered open client ends with exactly that roster. |
| RelayAnnouncements.ToldExactly | NetworkServer/Server.cpp:70-100 | In every run, a client has been sent AddClient of another one once for every step at which that one was registered while the client was connected, or the client was registered while the other one was listed and connected; so not at all exactly without such a step. |
| RelayAnnouncements.IntroducedExactly | NetworkServer/Server.cpp:70-118 | A game packet that the server relays comes after AddClient of its sender on the receiver's channel if and only if the run has introduced the two in that way. |
| RelayAnnouncements.ToldOnce | NetworkServer/Server.cpp:84-97 | Over its whole life a client that heard of no connected id before its registration is told of every other client at most once. |
| RelayAnnouncements.RosterIsShort | NetworkClient/ClientConnection.cpp:27-32 | After any part of its channel such a client lists fewer entries than there are 32-bit words. |
| RelayAnnouncements.RosterIsBounded | NetworkClient/ClientConnection.cpp:27-32 | After any part of its channel any client lists at most two entries per connection ever accepted. |
| RelayKnowledge.KnownExactly | NetworkServer/Server.cpp:53-118 | In every run, an open client, registered or not and whatever has become of its roster, will find the sender of the packet relayed now if and only if it has been introduced to the sender, at least once if the server lists the sender and at least twice otherwise. |
| RelayRuns.OverlapDuplicates | NetworkClient/ClientConnection.cpp:27-32 | A reachable state after two overlapping registrations in which a client lists the other one twice. |
| RelayRuns.FlushCanForget | NetworkServer/Server.cpp:53-65 | A reachable state in which the next flush drops a registered id from both vectors. |
| RelayRuns.RegistrationCanBeUndefined | NetworkServer/Server.cpp:91-97 | A reachable state in which the next packet is a Register whose closing loop would erase from the vector it walks. |
| RelayRuns.UnannouncedSender | NetworkServer/Server.cpp:84-118 | A reachable state in which an open registered client has been sent a game packet of a sender it was never told of. |
| RelayRuns.ToldBeforeAccepted | NetworkManager/server_interface.h:98-104 | A reachable state in which an unvalidated connection has been sent only an AddClient, and its Accepted then comes second. |
| EndToEnd.GamesAreGenuine | NetworkServer/Server.cpp:107-118 | Every game packet on a channel was built by the client whose id it ends with. |
| EndToEnd.LinkIsHandled | NetworkClient/Client.cpp:238-276 | A client that has received the first packets of its channel has handled every one without popping below a body, and believes what the packets as sent make it believe. |
| EndToEnd.ReceivedIsPoppable | NetworkClient/Client.cpp:199-339 | Every packet the server puts on a channel is long enough for what its handler pops, in any state of the client. |
| EndToEnd.StreamIsRead | GameClientManager/GameClientManager.h:16-86 | Reading a stream of the splitter calls one reader per packet of its read type, in order, with the player index. |
| EndToEnd.RoundIsMade | NetworkClient/Client.cpp:98-125 | For each kind, a round of the sending thread puts out nothing exactly if no entity has written data of that read type, and otherwise one packet, made of what the entities have written. |
| Systems.RefinesProtocol | NetworkManager/connection.h:91-249 | With every channel carried by a byte link, the system is always in a state the protocol can reach, and whatever an end does on what its link hands up is a step the protocol allows; some connections may have had their challenges overtaken, as long as the server does not admit them. |
| Systems.MovesAreSteps | NetworkManager/connection.h:91-249 | What a move of the system does to the protocol is exactly the protocol step it stands for, and nothing if it stands for none. |
| Systems.HandshakeExactly | NetworkManager/connection.h:207-249 | In every history, whatever has been overtaken: once the server has read an answer, it is the one the server compares with if and only if its client had read the challenge issued for that connection. |
| Systems.OnlyTheChallengedAreAdmitted | NetworkManager/connection.h:227-249 | In every history the server can admit a connection only if its client has read the challenge issued for it. |
| Systems.HandshakeSucceeds | NetworkManager/connection.h:207-249 | The answer of a client whose challenge was not overtaken is always the one the server compares with. |
| Systems.ClientRunsTheProtocol | NetworkClient/Client.cpp:238-276 | A client whose challenge was not overtaken and that has handled the messages its link handed up has the ids and flags the protocol gives it. |
| Systems.EndToEndDelivery | NetworkClient/Client.cpp:180-236 | Every game packet that the link to a client hands up, unless that client's own challenge was overtaken, was put on its own link by another client and came through both links and the relay unchanged; if that client made it of some entity packets, the receiver reads exactly those of its read type, in order, tagged with the sender's position, if it lists the sender by then, and drops it otherwise. |
| Systems.EveryOpenClientGetsIt | NetworkServer/Server.cpp:107-118 | When the server handles a game packet, the link to every other open connection is given it last. |
| Systems.KnowsSenderIfListed | NetworkClient/Client.cpp:199-206 | A registered client that heard of no connected id before its registration will know the sender of that packet if and only if the server lists it. |
| Progress.RelayedCanBeRead | NetworkClient/Client.cpp:180-236 | While both ends of that link are open, steps of the link alone lead to a state in which the receiver has been handed the packet and reads or drops it so. |
| Progress.PostedCanBeRead | NetworkClient/Client.cpp:199-236 | While no socket is closed and no challenge has been overtaken, any game packet that a client has posted and the server has not fetched can reach every other connected client, which reads in it what it was made of or drops it so. |
| Progress.ServerGetsWhatWasSent | NetworkManager/connection.h:155-205 | Every message that the link from a client hands up equals the one the client sent, body included: no stale body ever reaches the server. |
| Progress.RunsAreRealised | NetworkManager/connection.h:91-249 | Every state of the protocol that is reached by taking packets as they were sent, with any closing, is the protocol's state in some system with links. |
| Progress.RelaysHappens | NetworkServer/Server.cpp:107-118 | A system with links in which the server is about to relay a game packet to another open connection. |
| Reception.EventsReachTheGame | NetworkClient/Client.cpp:145-236 | However the two threads of a client take turns, what its game has been handed, followed by what is queued for it, is the events it kept, each once and in order; those of another client are the events relayed while it knew that client, which is for one stretch of its channel, and they are a contiguous stretch of the events that client sent. |
| Reception.ThreadsAreRuns | NetworkClient/Client.cpp:145-196 | The schedules that this speaks of are all interleavings of the two threads. |
| Reception.AllCanBeHandled | NetworkClient/Client.cpp:238-276 | Everything that the link to a client has handed up can be handled. |

## Left out

- asio: third-party. Assumed only that the bytes written on one socket arrive in order and that handlers run one at a time; handlers and locked regions are atomic steps, so data races on unlocked fields are not modelled.
- Liveness: the condition variable of the queue, thread start, join and sleeping; safety only is proved.
- Closing: one flag per connection, as the server's socket reports it; a client may still act after it, and what it sends then is never taken. A close is one step, at any time.
- Name resolution, console and file input, accept errors, rejected handshakes: a connection that fails validation stays unvalidated in the protocol model.
- Framing.FramingIsCorrect: for runs in which no posted packet runs before the handshake bytes have left; what the others do is stated exactly in Overtaking.
- Delivery.NothingGetsStuck: says that a continuation exists, not that a fair scheduler takes it.
- Servers.Server.OnReceivePacket: requires that the two loops leave the vectors they walk alone; beyond that the C++ has no defined meaning.
- Servers.Server.Update: without its wait, and with every packet meeting the condition of the handler.
- Servers.Server.OnAccept: the id counter does not wrap. The bound of eight is tested against registered ids only, so it is not a bound on connections and no such bound is claimed.
- Sizes: bodies shorter than 2^32 bytes, and vectors no longer than their 32-bit size type. A packed vector whose byte count exceeds 2^32 is not covered.
- Clients.Client.HandlePacket: requires bodies long enough for the pops; for everything the server sends this is proved in EndToEnd.
- ClientBuffers.SnapshotsAreFresh: no peer is added or removed while the unlocked walk over the peers is under way, since the C++ has no defined meaning for that.
- ClientBuffers.TagIsCurrentExactly: speaks of the index when a snapshot is read; a removal between that read and its processing can make it stale in the same way.
- GamePackets.PacketsToGamePackets: a stream that ends too early is reported as an overrun, where the C++ reads past the end; the branch for several readers is unreachable behind the loop guard and is not written out.
- GameClient.ReadPacket: reader indexes are not checked, as in the code, and streams that overrun are excluded; what the readers do is not modelled.
- Systems.RefinesProtocol: for histories in which the server admits no connection whose challenge was overtaken. It rejects the answer to any other challenge (Systems.HandshakeExactly); left out are those where the overtaking bytes come out the same, and what a client does that has been misled about its challenge.
- Systems.EndToEndDelivery: for packets with one ordinary reader, which are all the entities build. For a client that knew a connected id when it was registered it assumes that fewer than 2^31 connections have been accepted, since such a client can be told of others twice.
- Reception.EventsReachTheGame: ends where the processing thread is handed the events; each is then read as EndToEnd.StreamIsRead says. The walks of that thread are those of ClientBuffers, with no peer added or removed meanwhile.
- Progress.RunsAreRealised: possibility only. That the server takes packets as they were sent is no restriction on systems with links, since it is handed no others (Progress.ServerGetsWhatWasSent).
- Systems.World: the client's end of a link is two machines, one a direction, so a socket that fails in one direction does not fail in the other at once.
- Game entities, process memory access, polling of the game's state and its listeners: producers and consumers of game packets only.
- GameNetworkManager: repeats the reading and writing logic of GameClientManager.
- The queue's other end (`push_front`, `pop_back`, `back`) and `count`: not used by the pumps or the server.
