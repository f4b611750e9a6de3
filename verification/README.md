# A verified model of go-udp's demultiplexer, batch reader and control messages

go-udp turns one UDP socket into a listener with a connection per remote
address. This project models the three parts where that is hard to get right,
and proves what they promise for every input and every interleaving.

**The demultiplexer and its shutdown** (super.go, conn.go). `Protocol` is a step
system: a `State` holds what the goroutines share (the map, the accept channel,
the `accepting` flag, the mutex, both wait groups, the socket and its close
error) and the program counter of the read loop, of the goroutine that closes
the socket, of `supConn.Close` and of the `Conn.Close` of every connection; a
`Step` is one atomic action of one of them. There are any number of connections,
of `Accept` calls and of repeated `Close` calls. The steps are as fine as Go's
memory model lets another goroutine see them: the send to `acceptCh` comes before
the map insert, `Accept` receives before it adds to `connWG`, `accepting` is
cleared and loaded outside the lock. `ProtocolInvariant` proves one inductive
invariant of all steps. `Accounting`, `ErrorReport`, `ErrorExact`, `SocketLast`
and `Progress` draw the conclusions: the map is exact, a close error is reported,
the socket is closed last, shutdown neither deadlocks nor runs on.

`Traffic` puts packets and buffers on top: a `World` is a `State` with the queue
of every connection, the two pools and what everybody holds. `Ownership` proves
that each buffer has one owner, `Pools` what each move does to the pools,
`Streams` what a connection's reader gets of what arrives, `Conservation` that no
packet vanishes on the way; `RoundTrip` is a run from the socket to the reader.

`SuperConn` has the same methods as code, a class whose fields they change, with
the other goroutines running between any two of their actions; `Interference`
says what a goroutine can rely on meanwhile. Each action is a step of the step
system, so whatever holds of all its runs holds of these methods.

**The batch reader** (raw/sys_conn_oob_reader.go). `BatchReading` is a class over
an explicit memory: a slot names its two buffers, so slots can share one, as the
constructor makes them do. It is proved to refine a plain queue of packets until
the first failed refill, and only until then. `ReadLoop` composes it with the
control-message walk and `readLoop`.

**Control messages** (raw/sys_conn_oob.go, raw/sys_conn_helper_linux.go,
types/ecn.go). `ControlMessages` is the layout of ancillary data of section 20 of
RFC 3542 on 64-bit little endian Linux; `OobConn` has the code that appends and
walks it; `Ecn` has the codepoints of section 5 of RFC 3168. `KernelVersion` is
the parser of release texts.

Some promises turned out not to hold of the code as it stands, and are stated with
what does hold. After a failed refill the batch reader returns old slots
(`BatchReading.RefinesQueueIffNoFailure`), which `readLoop` never sees. An error
from closing the socket can go unreported, and the socket can be closed before a
connection that is handed out, while an `Accept` is between its receive and its
`connWG.Add(1)`; `ErrorExact.ReportedIff` and `SocketLast.SocketClosesLast` say
exactly when, and two lemmas give the runs. The comment on `kernelVersion`
promises 0, 0 for a text that does not parse; `KernelVersion.UnparsedIsZeroIff`
says for which of these texts that is so.

## Model

| member | source | states |
|---|---|---|
| `ProtocolInvariant.StepKeeps` | super.go:87-225 | every step of every goroutine keeps the invariant: lock, channel, connection, map, wait group, sweep, socket and waiter parts together |
| `ProtocolInvariant.ReachableInv` | super.go:52-83 | the invariant holds in every state of every run from what wrapConn leaves behind |
| `Accounting.MapIsExact` | super.go:199-225 | whenever the lock is free, the map sends an address to a connection if and only if that connection was enqueued under it and is neither drained nor deleted |
| `Accounting.OnePerAddress` | super.go:202-219 | whenever the lock is free no two live connections share an address |
| `Accounting.CloseDeletesOwnEntry` | conn.go:81-84 | in every reachable state the delete of Conn.Close removes exactly the entry of its own connection, and it is there |
| `Accounting.DrainDeletesOwnEntry` | super.go:98-100 | the same for the delete of the drain |
| `Accounting.OnceThroughTheChannel` | super.go:215-219 | every connection enters acceptCh once and leaves it at most once, in order; who is in the channel is exactly who was not taken; the channel keeps to the backlog |
| `Accounting.DoneClosedOnce` | super.go:91-99 | no doneCh, the listener's or a connection's, is closed twice in any run with any number of Close calls |
| `Accounting.ConnWGIsExact` | super.go:70-79 | connWG is one until the listener's Done plus the connections handed out whose Close has not run Done; no Done takes it below zero |
| `Accounting.NobodyWaitsWithLock` | super.go:106-113 | no closer waits for readWG while it holds the lock |
| `Accounting.DrainIsFinal` | super.go:90-107 | from the end of the drain on, in every later state, the channel is empty, nothing was created and the map has only lost entries |
| `ErrorReport.CloseErrorIsReported` | super.go:111-119 | in every reachable state in which the listener's Close and that of every connection handed out are over, one of them waited for the socket-closing goroutine and returns the error it left, unless an Accept is between receive and Add |
| `ErrorReport.CloseResultIsTheSockets` | super.go:76-78 | in every run the error on record is e if and only if the one call of pConn.Close in that run returned e |
| `ErrorReport.ReportedMeans` | super.go:113-116 | where the error counts as reported, the socket was closed in that run, and if that returned an error some finished Close has returned that very error |
| `ErrorReport.SocketErrorIsReturned` | conn.go:86-94 | if closing the socket returned x in a run then, once every Close is over and no Accept is between receive and Add, some finished Close has returned x |
| `ErrorReport.AcceptInFlightHidesTheError` | super.go:145-146 | that exception happens: a reachable state with every Close over, nobody having waited, and connWG at zero |
| `ErrorExact.ReportedIff` | super.go:106-119 | when the listener's Close is about to count, the error is reported in every continuation in which every Close ends, if and only if no Accept is between receive and Add or some Conn.Close has already seen the map empty |
| `SocketLast.SocketClosesLast` | super.go:74-80 | when connWG.Wait returns the listener is closed and no connection handed out is open; no connection will be open in any later state if and only if no Accept is then between receive and Add |
| `SocketLast.SocketClosesUnderAccept` | super.go:145-146 | such an Accept exists when Wait returns in some run, and the connection it then returns is open on a closed socket |
| `SocketLast.AtomicAcceptClosesLast` | super.go:145-148 | in every run in which Accept's receive and Add are one step, past connWG.Wait no connection handed out is ever open, and no Add finds the counter at zero |
| `SocketLast.AtomicAcceptReports` | super.go:111-119 | in every such run, once every Close is over the error that closing the socket returned was returned by one of them, without exception |
| `Progress.EveryStepCounts` | super.go:166-225 | every step that nobody outside prompts lowers a rank |
| `Progress.ShutdownNeverDeadlocks` | super.go:71-80 | once Close was called on the listener and on all connections handed out, every reachable state has a step that needs no outside help, until all goroutines and all calls are done |
| `Progress.ShutdownTerminates` | super.go:106-113 | left alone, the goroutines take at most Rank(s) steps from any reachable state s, and if they stop with every Close called everybody is done |
| `Progress.CloseMayBeRepeated` | super.go:89 | Close can be called again at any time, which changes nothing but the number of callers |
| `Ownership.MoveBalances` | super.go:256-267 | every move gives what it takes: the number of owners of a buffer changes only where it is made |
| `Ownership.OneOwner` | super.go:170-197 | in every reachable world each buffer ever made is in exactly one of the pools, the read loop, a queue, a reader's hands or the dropped ones |
| `Ownership.HeldIsNotPooled` | conn.go:45-49 | a buffer in a queue or with a reader is in no pool, not with the read loop and not in the other of the two |
| `Ownership.HeldByOneConn` | super.go:191-197 | no two connections have the same buffer |
| `Pools.PoolsAreExact` | super.go:256-267 | in every reachable world, move by move and exactly: closing a queue puts its data buffers into the one pool and its out-of-band buffers into the other, a Read puts its two back, Get takes from its own pool; buffers are dropped only by a pool that forgets one, a failed read, a packet without a connection and a push to a full or closed queue |
| `RoundTrip.PacketComesThrough` | super.go:169-224 | a run exists in which an admitted packet of a new remote is read from the connection it created and both its buffers are back in their pools |
| `Streams.StreamIsFaithful` | conn.go:34-51 | in every reachable world the packets read, then those queued or handed back at queue close, are the packets pushed, which are arrivals from the connection's address in arrival order |
| `Streams.CreatorComesFirst` | super.go:210-224 | the packet that created a connection passed the filter, is from its address and is the first one pushed, unless the read loop is still on its way with it or the queue was closed before |
| `Streams.PushIsExact` | super.go:191-197 | a packet on its way to a connection is appended to that connection's stream and no other's, if and only if its queue is open and has room |
| `Streams.ClosedSocketIsSilent` | super.go:76-79 | once the socket is closed it stays closed and nothing arrives any more |
| `Conservation.NoPacketVanishes` | super.go:166-197 | in every reachable world, for every packet: as many as arrived were read, are queued, were handed back at queue close, were discarded or are with the read loop |
| `Streams.PoolsKeepTheirKind` | super.go:260-267 | each pool gets back only buffers of its own kind |
| `Interference.OthersRely` | super.go:199-225 | whatever the others do, nobody but its holder changes what the mutex protects, nobody moves another's program counter, accepting is never set again and connections keep their addresses |
| `Interference.OthersTakeAll` | super.go:140-160 | nothing is kept out: any run without steps of one's own can come between two of one's actions |
| `SuperConn.SupConn.constructor` | super.go:52-72 | the fields wrapConn sets up are those of every initial state |
| `SuperConn.SupConn.GetSubConn` | super.go:199-225 | with the others running between any two of its actions: it finds a connection if and only if the map had one when it got the mutex; each refusal has its reason; the map, the channel's history and the connections grow by exactly the one created; the connection returned is the only live one of its address |
| `SuperConn.SupConn.Drain` | super.go:95-105 | with Accept calls receiving at the same time: the channel ends up empty, exactly the connections the drain took lose their entries and become drained, and they were in the channel |
| `SuperConn.NobodyStaysQueued` | super.go:95-107 | of those that were in the channel each is drained with its doneCh closed once, or with an Accept call |
| `SuperConn.SupConn.Close` | super.go:87-123 | the whole body: accepting off, doneCh closed once; it waits if and only if the drain took all that the map held when it got the mutex, and then returns what closing the socket returned, else nil; where it blocks |
| `SuperConn.SupConn.Accept` | super.go:140-160 | all four cases of the select; the read error only when the read loop is over, the closed error only when the listener is closed; a connection is the oldest in the channel and, whatever the others do between receive and Add, is open when it is returned |
| `SuperConn.SupConn.OnlyClosedAnswers` | super.go:157-158 | with the listener closed, the read loop running and nobody waiting, Accept can answer that it is closed, and apart from a deadline nothing else |
| `SuperConn.SupConn.OnlyReadErrorAnswers` | super.go:150-154 | with the listener open, the read loop over and nobody waiting, likewise the read error |
| `SuperConn.SupConn.CloseConn` | conn.go:76-102 | the whole body: exactly this connection's entry goes while it has the mutex; it waits only if it left the map empty with accepting off, and does if accepting was off before; it returns what closing the socket returned if it waited, else the queue's error; where it blocks |
| `BatchReading.ReceiveArrives` | raw/sys_conn_oob_reader.go:58-62 | through a slot with two different buffers a message arrives as far as it fits, and no other buffer changes |
| `BatchReading.SharedSlotKeepsDataIff` | raw/sys_conn_oob_reader.go:117-118 | through a slot as the constructor leaves it, data survives if and only if the out-of-band bytes agree with it as far as they reach |
| `BatchReading.ReadBatch` | raw/sys_conn_oob_reader.go:58-62 | a call demands that all eight slots point at buffers of their own, none shared, each large enough; then the first slots hold the messages and the others what they held |
| `BatchReading.RenewBuffer` | raw/sys_conn_oob_reader.go:133-142 | the buffer at an index ends up long enough and out of the pool; a long one stays; a short one goes to the pool; no other index changes |
| `BatchReading.FillWindow` | raw/sys_conn_oob_reader.go:44-62 | the refill makes every slot ready for ReadBatch and exchanges no buffer; the slots then hold the batch and behind it what they held; the window is the batch, or full length after a failed or empty one |
| `BatchReading.BatchReader.constructor` | raw/sys_conn_oob_reader.go:98-129 | sixteen different buffers out of the pools, both slices of a slot on the same one, the cursor at the end |
| `BatchReading.BatchReader.Read` | raw/sys_conn_oob_reader.go:36-76 | the closed, failed and packet cases, if and only if; a packet is the head of what was pending or of the new batch, copied as far as it fits; what was returned and is pending is what was delivered, until a refill fails |
| `BatchReading.BatchReader.ReleaseBuffers` | raw/sys_conn_oob_reader.go:80-89 | all sixteen buffers are put back, each kind into its pool, once whatever the number of calls |
| `BatchReading.RefinesQueueIffNoFailure` | raw/sys_conn_oob_reader.go:56-61 | returned followed by pending equals everything delivered if and only if no refill has failed |
| `BatchReading.FailedRefillReplays` | raw/sys_conn_oob_reader.go:56-66 | after a failed refill the next Read returns what slot 0 holds, whatever the kernel has: the message that came with the error, or the one that was there before |
| `BatchReading.AllBuffersOnce` | raw/sys_conn_oob_reader.go:82-88 | the buffers Close puts back are put back once each |
| `BatchReading.RunCalls` | raw/sys_conn_oob_reader.go:37-42 | over any interleaving of Read and Close calls every buffer the reader had at the start is put back once if some Close got to its release and else not at all, no other buffer is, and a Read gets ErrClosed if and only if a Close began before it |
| `ReadLoop.Turn` | raw/sys_conn_oob.go:190-195 | a turn returns ErrClosed if and only if the reader is closed, else the next undelivered message or the error of the batch that is due |
| `ReadLoop.RunReadLoop` | super.go:166-189 | with Close calls on the reader before any of its reads: the packets dispatched are the messages the kernel delivered, in order and once each; all of them up to the first batch error; a Close ends the loop at the next read, with exactly those missing that the window still held |
| `Ecn.CodepointsAreInverse` | types/ecn.go:7-44 | the two codepoint maps are inverse, the bits 00, 01, 10, 11 being the values 1 to 4, and defined on exactly the two-bit values and these four |
| `ControlMessages.ParseOne` | raw/sys_conn_oob.go:197-201 | what remains after a message is strictly shorter, on every buffer |
| `ControlMessages.LowestFirst` | raw/sys_conn_helper_linux.go:88-89 | numbers are laid out with the lowest byte first |
| `ControlMessages.LastMayLackPadding` | raw/sys_conn_oob.go:197-201 | the last message is parsed with any part of its padding cut off |
| `ControlMessages.CutShortIsBad` | raw/sys_conn_oob.go:198-201 | a message without all of its data is an error |
| `ControlMessages.ShortLengthIsBad` | raw/sys_conn_oob.go:198-201 | so is a length below the header's |
| `ControlMessages.ParseEncoded` | raw/sys_conn_helper_linux.go:78-91 | a message laid out by an append is parsed back, whatever follows |
| `ControlMessages.DecodeInvertsEncode` | raw/sys_conn_oob.go:196-248 | walking the layout of any list of messages gives that list |
| `ControlMessages.WalkAppended` | raw/sys_conn_oob.go:196-248 | the walk over a well-formed aligned buffer and a tail is the one walk and then the other |
| `ControlMessages.AppendWorksIffAligned` | raw/sys_conn_oob.go:334-361 | appending a message to a well-formed buffer adds that message if and only if the buffer is aligned |
| `OobConn.AppendIPv4ECNMsg` | raw/sys_conn_oob.go:334-346 | the bytes written are those of the TOS message with the codepoint's bits; it panics exactly on values without bits |
| `OobConn.AppendIPv6ECNMsg` | raw/sys_conn_oob.go:348-361 | the same for the traffic class message of section 6.5 of RFC 3542 |
| `OobConn.AppendUDPSegmentSizeMsg` | raw/sys_conn_helper_linux.go:78-91 | the bytes written are those of the segment size message |
| `OobConn.AssembleOOB` | raw/sys_conn_oob.go:260-287 | when WritePacket refuses or panics, if and only if, and else the control buffer it hands to its writer: behind a well-formed aligned buffer the original messages, then level 17 type 103 with the segment size in two bytes if any, then level 0 type 1 with one byte for IPv4 or level 41 type 67 with four for IPv6, the codepoint's bits in the first |
| `OobConn.AssembledDecodes` | raw/sys_conn_oob.go:260-287 | behind every well-formed aligned buffer that buffer is well formed and aligned and decodes to the original messages, then the segment size if any, then the ECN message of the remote's kind if any, in the numbers of the Linux headers |
| `OobConn.ReadECN` | raw/sys_conn_oob.go:196-249 | on every byte buffer the walk ends: out of range if a message of level 0 type 1 or level 41 type 67 that it reaches is empty, else an error if the buffer is not well formed, else the codepoint in the two low bits of the first byte of the last such message, or the zero value if there is none |
| `OobConn.SendThenParse` | raw/sys_conn_oob.go:196-248 | behind every well-formed aligned buffer the walk returns the codepoint that was written if and only if no earlier TOS or traffic class message is empty |
| `KernelVersion.KernelVersion` | raw/sys_conn_helper_linux.go:125-151 | on every release text the two array entries are indexed within range and end up as the first two numbers |
| `KernelVersion.VersionReadsBack` | raw/sys_conn_helper_linux.go:131-150 | printing two numbers with a dot between them and any text that starts with a non-digit behind them reads back as that pair |
| `KernelVersion.UnparsedIsZeroIff` | raw/sys_conn_helper_linux.go:120-122 | a text that is not digits, dot, digits and a non-digit gives 0, 0 if and only if neither its first number nor the one behind the first non-digit is ended with a value other than a multiple of 2 to the 64 |
| `KernelVersion.ShortNumberIsZeroIff` | raw/sys_conn_helper_linux.go:136-137 | for up to nineteen digits that is so if and only if all are 0 |
| `KernelVersion.UnparsedWithNumbers` | raw/sys_conn_helper_linux.go:138-147 | the text 5-3 does not parse and gives 5, 3 |

## Left out

- ReadLoop.RunReadLoop: assumes of ReadBatch that it returns at least one message when it returns no error. With none and no error `Read` returns an empty packet without an address, which readLoop would dispatch; that needs the nil-address path below.
- ReadLoop.RunReadLoop: the walk over control data runs on a sequence of bytes, the caller's buffers are fresh arrays in each turn instead of pooled ones; pooling is in Ownership.
- Progress.ShutdownTerminates: counts steps and knows no scheduler; that an enabled goroutine is run eventually is the Go runtime's part.
- SuperConn.SupConn.Accept: the error it returns when the read loop is over is not carried along, only that it is that case.
- OobConn.AssembleOOB: Go's `append` may write into spare capacity of the caller's packet info; the model always copies.
- The Go runtime's panic for a WaitGroup that is added to while a Wait is returning. It needs an Add on a zero counter, which AtomicAcceptClosesLast excludes for an atomic Accept and SocketClosesUnderAccept shows possible otherwise.
- `Conn.Read` beyond its pop and its two puts: its copies are those of the batch reader, and its error branches only choose between io.EOF and the queue's error. `Conn.Write` and the deadline checks.
- The ring queue, the byte buffer pools, wait groups, mutexes, sync.Once and the kernel's batch call are contracts: a bounded first-in first-out queue whose push fails when it is full or closed, whose pop fails when it is closed and whose close hands back what is left; a pool that may forget a buffer; a closed socket whose reads fail.
- That buffers return to the pools in the end: rejected packets, failed pushes, read errors and drained connections drop theirs (super.go:180-183, super.go:192-196, super.go:98-100).
- Deadlines and timers; an expired Accept deadline is a step that can happen at any time.
- Nil remote addresses, connections without listener mode (dial.go), and a backlog of zero.
- The bytes of a packet in the demultiplexer: the accept filter is an attribute of the packet.
- `batchWriter` (raw/sys_conn_oob_writer.go).
- Socket options, buffer sizing, DF handling, capability probing, environment variables, `OOBForAddr`, `BasicConn`, `SingleAddrConn`, dial.go, listener.go, logging, and the variants for other systems and byte orders.
