# Iris client binding: a verified model

This project models the client side of the Iris relay protocol as implemented by the Go binding, and proves what
the protocol promises its users: packets survive the wire, concurrent writers do not disturb each other, tunnels
deliver messages in order under flow control, inbound work is bounded, and requests get their own answers.

| file | what it models |
|---|---|
| `Basics.dfy` | bytes, Go's fixed-width integers, sums |
| `Wire.dfy` | base-128 integers (unsigned LEB128, section 7.6 of DWARF 4), booleans, length-tagged blobs |
| `Packets.dfy` | the packets the client sends, with a reference decoder |
| `Receiver.dfy` | the packets a relay sends, the `proc*` functions and the `process` loop, on any byte stream |
| `Socket.dfy` | the socket fields of `Connection`, written and read in place by the source's loops |
| `Writer.dfy` | `sendPacket` under any number of concurrent calls, as a state machine |
| `EndToEnd.dfy` | the writer's stream read by a peer's `process` |
| `Flow.dfy`, `Tunnel.dfy` | chunking, reassembly, the signalled counters, and the tunnel object updated in place |
| `Link.dfy` | both ends of a tunnel and everything in flight, as a state machine |
| `Progress.dfy`, `Operational.dfy` | which messages get through a tunnel, and when a tunnel is stuck |
| `TunnelOverWire.dfy` | a tunnel carried by the shared writer and receiver |
| `Admission.dfy` | the memory limits on inbound broadcasts, requests and events |
| `Requests.dfy`, `TunnelTable.dfy` | the tables of pending requests and live tunnels |

A state machine's step is what the source does atomically: one lock-protected section, one atomic add, one channel
operation. A run is any sequence of enabled steps, so a statement about all runs covers every interleaving. The class
methods are proved against the same functions the machines step by. A message "gets through" or "can reach the
application" if some continuation in which it is not given up ends with the receiving application having it.

## Where the code falls short of what it says

- **Abandoned sends can jam a tunnel.** The bytes of an abandoned message are granted back only when the first chunk of
  the next message arrives, and that chunk needs allowance itself. The test `TestTunnelOverload` promises that a tunnel
  stays operational after abandoned sends. As long as none is abandoned, a message gets through exactly if it fits the
  64 MiB buffer (`Progress.DeliveredUnlessAbandoned`). Whatever is abandoned, messages that fit get through exactly if
  the chunk limit divides 64 MiB or is no smaller, provided that only messages that fit are ever sent
  (`Operational.OperationalIff`). `Send` accepts larger ones too; with those, exactly if the chunk limit is above 64 MiB
  (`Operational.RecoversIff`). A tunnel can get into a state in which nothing will ever be sent again exactly if the
  chunk limit divides 64 MiB (`Operational.WedgesIff`, `Operational.WedgedForever`).
- **The event limit is soft** (`Admission.LimitKeptIff`). `topic.go` calls its check safe because only one thread
  increments the counter, but `proto.go` starts a goroutine for every event. The limit can be exceeded by one item for
  each further goroutine inside the check, and that bound is reached. The counters are int32 while the limits are not:
  they are right exactly if the bound is below 2^31 (`Admission.CounterExactIff`).
- **An error without text is lost.** One from the relay arrives as a timeout (`Requests.VerdictReachesCaller`), one from
  a request handler as a successful reply (`Requests.HandlerReachesCaller`); all others arrive as they were meant.
- **One reply too many stops the receiver loop, with the table's lock held** (`Requests.BlocksIff`): exactly if it is for
  a request that is not pending, or repeats an answer not yet picked up. In the second case the loop can go on once the
  caller has picked up the first answer. In the first case it is blocked for good (`Requests.BlockedForGoodIff`), and no
  call begins or returns any more (`Requests.StrayAnswer`).
- **Request deadlines wrap around** above 9,223,372,036,854 milliseconds (`Receiver.DeadlineIsExact`).

## Model

| member | source | states |
|---|---|---|
| Wire.VarintRoundTrip | proto.go:63-73 | every uint64 is read back from its encoding, whatever follows, in at most 10 bytes, and nothing after it is touched |
| Wire.VarintCanonical | proto.go:63-73 | among all terminated strings of the same value the encoding is the shortest, and the only one that short |
| Wire.VarintPrefixFree | proto.go:63-73 | no encoding is a prefix of another: a common stream determines number and remainder |
| Wire.VarintNoOverflow | proto.go:312-325 | reading back the encoding of any uint64, no turn of the loop shifts bits out or wraps the sum around |
| Wire.ShiftAndAdd | proto.go:319 | one wrapping shift-and-add turn of the reading loop is exact modulo 2^64 |
| Wire.VarintExtends | proto.go:312-325 | more bytes never change an integer already read |
| Wire.VarintExact | proto.go:312-325 | on any input: what the first byte below 128 ends is read, modulo 2^64, and without such a byte the input has ended |
| Wire.BoolExact | proto.go:296-309 | the byte 0 or 1 is a boolean and every other byte is refused |
| Wire.BlobRoundTrip | proto.go:76-84 | a length-tagged blob is read back as itself and nothing after it is touched |
| Wire.BlobExact | proto.go:328-340 | whatever length is announced: that many bytes are read, or fewer are left, or no int holds the length |
| Wire.BlobExtends | proto.go:328-340 | more bytes never change a blob already read, nor an error other than the end of input |
| Packets.Layout | proto.go:27-49 | each of the 13 packets as its opcode byte and its fields in order |
| Packets.OutboundRoundTrip | proto.go:114-288 | each of the 13 packets the client sends is determined by its bytes, whatever follows |
| Packets.ReadAllRoundTrip | proto.go:114-288 | a stream of packets is read back as exactly that list |
| Packets.StreamUnambiguous | proto.go:114-288 | two lists of packets with the same bytes are the same list |
| Receiver.InboundRoundTrip | proto.go:396-553 | each packet of the relay leads to exactly its handler call and consumes exactly its bytes |
| Receiver.Dispatches | proto.go:563-581 | each packet of the relay, as its opcode byte and its fields, leads to its handler call |
| Receiver.UnknownOpcode | proto.go:591-592 | exactly the nine opcodes a client receives are dispatched, every other byte is refused |
| Receiver.ProcessUnknown | proto.go:557-595 | an unknown opcode after any packets: they are dispatched, then the loop fails, and nothing is called for it |
| Receiver.ProcessFails | proto.go:557-595 | a packet or close that cannot be read ends the loop with its error, with no call made |
| Receiver.ProcessPackets | proto.go:557-595 | a stream of packets is dispatched in order and what follows is processed as if alone |
| Receiver.ProcessSession | proto.go:557-595 | packets and a close: all dispatched in order, nothing after the close read, failure exactly if a reason is given |
| Receiver.ProcExtends | proto.go:396-553 | on any bytes at all, more input revises nothing but a failure for want of input |
| Receiver.ProcessExtends | proto.go:557-595 | on any byte stream the calls made on a prefix are a prefix of all calls, a verdict other than end of input is final, and nothing is read after a close |
| Receiver.ProcessTruncated | proto.go:557-595 | a session cut anywhere before its end, closed with a reason or without, dispatches a prefix and ends with an end-of-input error |
| Receiver.HandshakeRoundTrip | proto.go:352-388 | for every first byte, magic and text: connected exactly if the relay accepts with its magic, denied with its reason, refused otherwise |
| Receiver.DeadlineIsExact | proto.go:419 | the handler's deadline is the one sent exactly up to 9,223,372,036,854 ms |
| Socket.Connection.SendVarint | proto.go:63-73 | the loop appends exactly the encoding |
| Socket.Connection.SendBinary | proto.go:76-84 | appends the length-tagged blob |
| Socket.Connection.EndPacket | proto.go:106-110 | counts the packet out, and flushes everything exactly if no write is pending |
| Socket.Connection.SendPacket | proto.go:92-288 | each of the 13 packets is written field by field as exactly its encoding, and flushed with all that is buffered unless other writers are pending |
| Socket.Connection.SendReply | proto.go:169-187 | a fault with a text travels instead of the reply, any other as a success |
| Socket.Connection.RecvBool | proto.go:296-309 | agrees with the parser, the violation on other bytes included |
| Socket.Connection.RecvVarint | proto.go:312-325 | the wrapping loop stops after the first byte below 128 and returns the base-128 value modulo 2^64, overlong strings included |
| Socket.Connection.RecvBinary | proto.go:328-340 | agrees with the parser, and leaves the input where it does |
| Socket.Connection.ProcInit | proto.go:352-388 | reads the relay's answer to the handshake |
| Socket.Connection.ProcPacket | proto.go:396-553 | for each opcode the packet is read and its handler called once, or the parser's error is returned and nothing called; unknown opcodes are refused |
| Socket.Connection.Process | proto.go:557-602 | the loop makes exactly the calls the stream stands for and stops where it should; then the socket and the termination channel are closed and `handleClose` is called once with the failure |
| Socket.Connection.ProcessNext | proto.go:560-595 | one turn of the loop: a dispatched packet, a graceful close or a failure |
| Writer.Invariant | proto.go:92-111 | in every run: lock discipline, whole packets in lock order plus the holder's partial one, each call logged once, and a nonempty unattended buffer means a write is pending |
| Writer.AllFlushed | proto.go:92-111 | once all calls have returned everything is on the wire, each packet whole, in lock order, exactly once |
| Writer.NoDeadlock | proto.go:92-111 | while a call has not returned, some call can take a step |
| Writer.AllReturn | proto.go:92-111 | from every reachable state all calls can return without a further one |
| Writer.SentInTurn | proto.go:92-111 | any list of packets can be sent and is then on the wire |
| Writer.PartsAreSeen | proto.go:92-111 | any part of a packet being written can be what the peer sees |
| Writer.ProgramOrder | proto.go:92-111 | a call finished before another began comes first on the wire, in every continuation |
| Writer.AloneSends | proto.go:92-111 | a call that is not interleaved does what the methods of the socket object promise |
| EndToEnd.SendersToHandlers | proto.go:210-278 | any interleaving of senders is dispatched by the peer as exactly their packets in lock order, with nothing left over |
| EndToEnd.PeerSeesPrefix | proto.go:92-111 | at any moment of any run the peer has dispatched a prefix and is merely waiting for input |
| Flow.ReplayConserves | tunnel.go:313-339 | every byte that arrives is under assembly, in a completed message, or granted back |
| Flow.Reassemble | tunnel.go:168-180 | for every chunk limit and every list of sending attempts, complete or cut, reassembly yields exactly the fully sent messages and grants back exactly the discarded pieces |
| Flow.Drain | tunnel.go:206-220 | allowance is reduced by exactly the need, or the need is not covered and the signal is reset |
| Flow.Fetch | tunnel.go:252-269 | the oldest message and the rest are the queue; an empty queue resets the signal |
| Link.Invariant | tunnel.go:155-339 | every interleaving keeps ordered delivery, conservation of credit and the signal conditions |
| Link.OrderedDelivery | tunnel.go:155-182 | received ++ queued ++ completed by what is in flight is the list of fully sent messages; what is received is always a prefix of it |
| Link.CreditConserved | tunnel.go:206-220 | allowance, chunks, assembly, queue and grants always add up to the 64 MiB buffer; allowance and buffered bytes stay within it |
| Link.NoLostSignals | tunnel.go:186-269 | the panic in `Recv` is unreachable, every chunk fits, no arrival or grant is missed by a waiting call |
| Link.WakesAreEarned | tunnel.go:186-269 | in every run a sender is woken at most once per allowance that arrived, and the receiver at most once per message completed |
| Progress.StuckMeansFull | tunnel.go:185-202 | with everything settled, a sender waits in vain only if its chunk and the bytes held back exceed the buffer |
| Progress.Complete | tunnel.go:168-202 | a completable message can be sent to its last chunk from any point, however much is in flight |
| Progress.Hopeless | tunnel.go:185-202 | an incompletable one is never completed, whatever happens, unless it is given up |
| Progress.CompletesIff | tunnel.go:155-269 | the receiving application can still get the message, without it being given up, exactly if it fits the buffer and its next chunk fits beside the bytes held back |
| Progress.DeliveredUnlessAbandoned | tunnel.go:155-269 | as long as no send was given up, a message can reach the application exactly if it fits the buffer, for every chunk limit |
| Operational.OperationalIff | tunnel.go:313-323 | with messages that fit the buffer a tunnel stays operational, whatever sends are given up, exactly if the chunk limit divides the buffer or is no smaller |
| Operational.MisalignedSticks | tunnel.go:313-323 | for every other chunk limit, a run that leaves a message of the buffer's size with no way through |
| Operational.RecoversIff | tunnel.go:155-182 | if larger messages may be sent and given up, those that fit always get through exactly if the chunk limit is above the buffer |
| Operational.WedgesIff | tunnel.go:155-182 | a tunnel can get into a state in which nothing is ever sent again exactly if the chunk limit divides the buffer |
| Operational.WedgedForever | tunnel.go:313-323 | nothing either application does frees a wedged tunnel |
| Tunnel.Endpoint.DrainAllowance | tunnel.go:206-220 | does what `Flow.Drain` says |
| Tunnel.Endpoint.HandleAllowance | tunnel.go:300-309 | adds the space and raises the signal |
| Tunnel.Endpoint.SendChunk | tunnel.go:185-202 | the chunk is sent exactly if the allowances arriving before the deadline and the end of the tunnel suffice, after the fewest that do; a failure sends nothing and names what came first |
| Tunnel.Endpoint.Send | tunnel.go:155-182 | the message is sent exactly if the allowances arriving in time suffice for all of it, after the fewest that do; a failure leaves a proper prefix sent and paid for, and names what came first |
| Tunnel.Endpoint.HandleTransfer | tunnel.go:313-339 | does what `Flow.Transfer` says: discard and grant back, append, queue and signal |
| Tunnel.Endpoint.FetchMessage | tunnel.go:252-269 | does what `Flow.Fetch` says and grants back the message's bytes |
| Tunnel.Endpoint.Recv | tunnel.go:226-248 | succeeds exactly if a message is queued or one is completed before the deadline and the end of the tunnel, on the first that is; nothing queued or arriving is lost |
| TunnelOverWire.MessagesArrive | tunnel.go:185-202 | if a tunnel's chunks are sent one call after another, then through the shared writer and the peer's loop, among other traffic, exactly the fully sent messages arrive, and a prefix of them at any moment |
| Admission.Bounded | topic.go:81-97 | every interleaving of producers and workers keeps the counter equal to the outstanding bytes and below the bound |
| Admission.AdmissionBound | topic.go:81-97 | 0 <= used = admitted and not started <= limit + (producers - 1) * longest admissible item |
| Admission.CounterExactIff | topic.go:81-97 | the counter is exact in every interleaving exactly if that bound fits an int32 |
| Admission.BoundReached | topic.go:81-97 | for every number of producers and every item size some interleaving reaches that bound |
| Admission.LimitKeptIff | events.go:22-33 | the limit is kept in every interleaving exactly with one producer and a limit that fits an int32, or with nothing to store |
| Admission.MemoryIsFreed | topic.go:86-92 | from every reachable state the workers can bring the counter back to zero, and then any item that fits the limit is admitted |
| Admission.Throttle.Handle | events.go:18-37 | a message is admitted exactly if it fits beside everything admitted and not started |
| Admission.Throttle.Start | events.go:27-32 | a worker takes the oldest message and frees its memory |
| Requests.RequestTable.Begin | connection.go:167-172 | registers both channels under the next id |
| Requests.RequestTable.HandleReply | events.go:84-95 | delivers to the request's own channel; blocks exactly if it is missing or taken |
| Requests.RequestTable.CleanUp | connection.go:175-182 | removes both channels |
| Requests.Invariant | connection.go:163-199 | in every run with a relay that answers each request at most once: equal domains, own answers only, no blocked receiver |
| Requests.OwnAnswers | connection.go:183-199 | an ended call returns the answer the relay gave to its own id, or that the connection ended; without an answer, that the connection ended or the packet never left; no reply blocks or panics |
| Requests.MapsMatch | connection.go:163-182 | both maps have the same keys always and are empty once all calls have returned |
| Requests.Served | connection.go:163-199 | as long as the connection lasts a call can be made and answered; it returns the answer and leaves the table as it was |
| Requests.NotSent | connection.go:174-187 | a call whose packet cannot be sent returns at once and leaves the table as it was |
| Requests.NoCallForgotten | connection.go:175-196 | a waiting call that was answered can return that answer |
| Requests.TerminationReleases | proto.go:596-598 | after the receiver loop has ended every waiting call can return that the connection closed |
| Requests.BlocksIff | events.go:84-95 | one more reply blocks the receiver exactly if its request is not pending or it repeats an answer not yet picked up |
| Requests.BlockedForGoodIff | events.go:84-95 | no continuation unblocks the receiver exactly if the request is not pending |
| Requests.StrayAnswer | connection.go:167-182 | after such a reply no call registers, none returns, and the connection does not terminate, whatever happens |
| Requests.VerdictReachesCaller | proto.go:424-456 | the relay's verdict is read back for its request, and the caller gets what was meant exactly unless it is an error without text |
| Requests.HandlerReachesCaller | proto.go:169-187 | a handler's results reach the caller as meant exactly unless there is an error without text, which arrives as a success |
| TunnelTable.Invariant | tunnel.go:47-76 | over every run tunnels are live and open, or closed exactly once, or removed before anyone had them |
| TunnelTable.TunnelLifecycle | tunnel.go:342-350 | no termination channel is closed twice; live tunnels are open; ids are never reused |
| TunnelTable.NoneStranded | events.go:180-189 | a tunnel the application holds is in the table or closed |
| TunnelTable.DropReleasesAll | events.go:113-130 | after a drop every tunnel that was live or is ever handed out is closed once, and none is added |
| TunnelTable.CloseReleases | events.go:180-189 | a live tunnel leaves the table for good and is closed once; no other tunnel changes, and for another id nothing happens |
| TunnelTable.Constructs | tunnel.go:47-76 | until a drop a tunnel can be constructed under a new id, live and open; a failed construction leaves the table as it was |
| TunnelTable.Table.NewTunnel | tunnel.go:47-76 | registers an open tunnel under the next id, or refuses after a drop and changes nothing |
| TunnelTable.Table.HandleTunnelClose | events.go:180-189 | afterwards the id is not live; its channel is closed once more exactly if it was, and no other is |
| TunnelTable.Table.HandleClose | events.go:123-129 | closes each live tunnel exactly once, in any order, no other, and ends the table |

## Left out

- The relay is an order-preserving pipe that answers each request at most once; its own behaviour is not part of this model.
- Socket errors and partial writes: writes succeed and the buffer is an unflushed suffix of the stream.
- Real time: deadlines and timeouts are steps that may happen whenever a call waits.
- Memory: `make` on a length beyond the int range is an outcome of its own (`LengthPanic`); running out of memory for smaller lengths is not modelled.
- Counters that only wrap after 2^63 operations (request, tunnel and byte indices) are unbounded numbers, and fewer than 2^31 calls of `sendPacket` are pending at once.
- Ill-formed tunnel streams (a continuation with no message open, chunks past the announced size, negative sizes or allowances) and chunk limits below one: the source's result depends on slice growth or does not terminate.
- Socket.Connection.Process: errors of closing the socket, and the exchange with `Close` over `quit` at the end.
- Several concurrent `Send` or several concurrent `Recv` calls on one tunnel, for which the one-slot signals are not designed.
- Link.State: one direction of a tunnel; the other is the same machine with the endpoints exchanged.
- Tunnel.Endpoint.Send: what other goroutines do meanwhile is a script of events seen while waiting; all interleavings are the business of `Link`.
- Socket.Connection.EndPacket: the buffer does not spill before a flush here; in `Writer` it may spill at any step.
- Admission.Throttle.Handle: one producer and a limit that fits the int32 counter; the thread pool is a queue; expired requests, handlers and their replies are not modelled.
- The rendezvous between `handleInitResult` and `initTunnel`, and the wait in `Tunnel.Close`.
- Subscriptions, default limits, argument checks other than the empty message, logging, and user handlers.
