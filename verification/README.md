# NetworkInfinibandWorkshop: verified models

Dafny models of the ping-pong and echo programs of NetworkInfinibandWorkshop, with proofs of what
they guarantee on every run. `dafny verify dfyconfig.toml` checks everything.

**The InfiniBand ping-pong protocol** (`Protocol`, `Invariant`, `Theorems`, `Termination`,
`Overshoot`, `CqCapacity`, `CqOverrun`, `DataPlane`, `EventMode`). A client and a server are joined by `n`
reliable queue pairs (QPs) and run the same completion loop, each over one completion queue. The
state machine holds the program's variables (`pending_qp[]` as two bits, `routs_arr[]`, `scnt`, `rcnt`), the
adapter's queues and the wire. Adapter steps (deliver a message, acknowledge a send) interleave
with the program's steps (poll a prefix of the queue, handle one completion), also inside a batch.
`n`, `iters` and `rx_depth` are any numbers of at least one. Every post of a receive or a send may
be refused for want of a queue slot, and then the program gives up as the code does; that this
never happens is proved. `Legal(c, steps)` says that `steps` is a run and `After(c, steps)` is the
state it leads to. `Protocol` has unbounded completion queues. `CqOverrun` gives them the
`rx_depth + 1` entries the program asks for: a completion that finds its queue full ends the run in
failure. A run of the bounded queues is a run of the unbounded ones until then, so what holds of every
state of the one holds of the other up to an overrun; that no run has an overrun, and that every run
completes, is the case if and only if `2 * n <= rx_depth + 1`. With one QP it always is.

**The loops as code** (`CompletionLoop`, `TestRunner`, `SingleQp`). The completion loops of
multistreamTestRunner.c, multithreadIB.c and Original/rc_pingpong.c as classes that update arrays
and counters in place, proved equal to specification functions. `CompletionLoop.HostIsLoop` ties
them to the protocol: along every run the program's variables are what its loop computes from its
polls. What the verbs library returns (polled completions, failed polls and waits, free queue slots)
is a parameter.

**Setup** (`Basics`, `Hex`, `ByteText`, `Gid`, `AddressLine`, `BufferSplit`, `Handshake`,
`HandshakeReads`, `SetupRuns`, `ThreadLaunch`). The text of addresses and GIDs, the split of one buffer over the QPs,
the address handshake with the queue pair states of section 10.3.1 of the InfiniBand Architecture
Specification, Volume 1, and the thread-launch loops. The handshake runs on the protocol's own
state, from before the first receive is posted, and `SetupRuns` proves that its runs are runs of the
protocol, although the server may receive and answer while the client is still posting.

**The TCP echo pair** (`EchoIo`, `EchoStreams`, `EchoProgress`, `EchoTable`, `EchoHangs`). The
multiplexing echo server and the stop-and-wait client: the loops as methods, and both programs as a
state machine over byte streams with bounded socket buffers and arbitrary partial reads, writes and
sends. The client opens and closes its connections group after group; the server keeps them in a
table of slots, which a connection keeps until the server has read its end.

Findings where the code does not do what one might expect:

- The completion queue has `rx_depth + 1` entries for all QPs together. It can be overrun exactly
  when two completions per QP do not fit (`CqOverrun.NoRunFailsExactly`).
- The echo pair can hang, in two ways. The client reads nothing before its `write` of a whole message
  returns, and the server reads nothing while its `send` waits: with socket buffers of `up` and `down`
  bytes a message of more than `up + down + 1` bytes can leave both inside a write. And the server
  accepts before it reads the ends of closed connections, and forgets a connection it has no slot for:
  a group of connections with more members than there are slots, or with as many and another group
  after it, can leave the client waiting for ever. The client and the server of the repository use 10
  for both. Where the end of a closed connection is readable before a later one is accepted, no run
  hangs if and only if neither is the case (`EchoHangs.NeverHangsExactly`).
- The client's receive loop does not look for the end of the stream: if the connection is lost, it
  ends if and only if the whole message had come, and otherwise reads on for ever
  (`EchoIo.LostEchoEndsExactly`).
- The server's read for the 5 bytes of "done" asks for 52, and can take the beginning of the next
  address line. Some run of the handshake makes the server give up if and only if there is more than
  one QP (`HandshakeReads.NeverGivesUpExactly`).
- With a message size of at least one byte per QP that the number of QPs does not divide, slices 0
  and 1 of the buffer overlap (`BufferSplit.OverlapExactly`) and the last `size % n` bytes are in no
  slice and are never transferred (`BufferSplit.UnusedTail`, `DataPlane.ServerBufferExactly`). What is
  on the wire is still the client's fill.
- The repository's README says the TCP client splits the message between its sockets. With fewer
  bytes than sockets, and more than one socket, it sends more than the message (`EchoIo.SplitTotal`).

## Model

| member | source | states |
|---|---|---|
| Invariant.InvHolds | multistreamTestRunner.c:705-804 | every reachable state of both ends, the wire and the queues satisfies the joint invariant |
| Theorems.NeverFails | multistreamTestRunner.c:771-801 | no post of a receive or a send is ever refused, under any interleaving without an overrun of a completion queue |
| Theorems.Alternation | multistreamTestRunner.c:793-801 | per QP the client has sent as often as the server or once more, and at most one message is undelivered or unhandled in both directions together |
| Theorems.BitIsSetWhenHandled | multistreamTestRunner.c:793 | a completion is only handled while its bit of the mask is set |
| Theorems.CreditsSuffice | multistreamTestRunner.c:771-785 | for every `rx_depth` an undelivered message can be delivered; `routs` equals the receives posted or completed but unhandled and lies in 1 to `rx_depth` |
| Theorems.QueueSlots | multistreamTestRunner.c:428 | posted or unpolled sends on a QP never exceed one and receives never `rx_depth`; a post is accepted exactly below these limits |
| Theorems.RefillIsComplete | multistreamTestRunner.c:772-782 | handling a RECV takes one credit or brings them back to exactly `rx_depth`; a SEND takes none |
| Theorems.CompletionBound | multistreamTestRunner.c:730-740 | at most one SEND and one RECV per QP wait at an end, so queue and batch together fit the poll array of two per QP |
| Theorems.StepsAreFree | multistreamTestRunner.c:728-742 | on every run a message on the wire can be delivered, a delivered send acknowledged, a polled completion handled, and any number of waiting ones polled while the loop test holds |
| Theorems.BoundedOvershoot | multistreamTestRunner.c:794-801 | sends posted are `scnt` plus the set SEND bits, at most `iters + n - 1`; on leaving the loop both counters lie between `iters` and `iters + n - 1` |
| Theorems.SingleQpExact | multithreadIB.c:746-839 | with one QP the counters never pass `iters` and equal it on leaving the loop |
| Theorems.NoStuckState | multistreamTestRunner.c:728-804 | when no step is possible, on a run without an overrun of a completion queue, both ends have reached `iters` in both counters, also if one left its loop earlier |
| Theorems.LeavingStrandsNobody | multistreamTestRunner.c:728-815 | when one end has left its loop and its messages have arrived, its peer reaches `iters` in both counters although nothing more is delivered to the end that left |
| Overshoot.OvershootIsReached | multistreamTestRunner.c:794-801 | for every configuration some finished run has the client at `iters + n - 1` SEND completions |
| Termination.StepDecreases | multistreamTestRunner.c:742-802 | every delivery, acknowledgement, poll and handled completion pays for itself in a measure of the whole state |
| Termination.RunsAreBounded | multistreamTestRunner.c:728-804 | a run has at most `8 * (iters + n - 1)` steps that are not polls, and `12 * (iters + n - 1)` with the polls |
| Termination.EveryRunCompletes | multistreamTestRunner.c:728-804 | every run without an overrun of a completion queue extends, on unbounded queues, to one that ends with both ends out of their loops |
| CqCapacity.PeakIsReached | multistreamTestRunner.c:420 | for every configuration some run fills the client's queue with two completions per QP |
| CqCapacity.NeverOverflowsExactly | multistreamTestRunner.c:420 | the queues never exceed `rx_depth + 1` entries on any run if and only if `2 * n <= rx_depth + 1` |
| CqOverrun.NoRunFailsExactly | multistreamTestRunner.c:420 | with queues of `rx_depth + 1` entries no run fails, by an overrun or an error return, if and only if `2 * n <= rx_depth + 1` |
| CqOverrun.RunsCompleteExactly | multistreamTestRunner.c:728-804 | with these queues every run extends to one that ends with both ends out of their loops if and only if `2 * n <= rx_depth + 1` |
| DataPlane.WireIsClientFill | multistreamTestRunner.c:388 | every byte of every message either way and of the client's buffer is 0x7b, and a message has the length of the slice it lands in, although slices are shared and may overlap |
| DataPlane.ServerBufferExactly | multistreamTestRunner.c:511-549 | a byte of the server's buffer is 0x7b when a message has arrived in a slice with it and 0x7c until then; the unused tail keeps 0x7c |
| DataPlane.EveryRunCarriesData | multistreamTestRunner.c:511-549 | every run of the protocol is made by some run with the data |
| EventMode.PlainRun | Original/rc_pingpong.c:720-800 | runs in which either end sleeps on events are runs of the polling protocol |
| EventMode.NoLostWakeup | Original/rc_pingpong.c:720-741 | before blocking, an event waits, or the queue is empty and armed |
| EventMode.NotificationsConserved | Original/rc_pingpong.c:655-741 | in event mode exactly one notification is requested, raised or taken at any time; without it none |
| EventMode.AdaptersAreFree | Original/rc_pingpong.c:720-800 | whatever the modes, messages on the wire can be delivered, delivered sends acknowledged and polled completions handled |
| EventMode.NobodySleepsForever | Original/rc_pingpong.c:655-659 | when nothing can happen, both ends have made exactly `iters` exchanges; nobody is left asleep |
| EventMode.SleepyRunsAreBounded | Original/rc_pingpong.c:720-800 | with either end polling or sleeping a run has at most `24 * iters` steps, waits and re-armings included |
| EventMode.EverySleepyRunCompletes | Original/rc_pingpong.c:720-800 | every such run extends to one where both ends have made exactly `iters` exchanges |
| CompletionLoop.OwnerIsUnique | multistreamTestRunner.c:746-757 | the search over distinct QP numbers finds exactly the QP that owns the completion |
| CompletionLoop.CompletionCounts | multistreamTestRunner.c:753-791 | an accepted completion is of an own QP, successful, and has id 1, raising `rcnt` alone, or id 2, raising `scnt` alone |
| CompletionLoop.EmptyPoll | multistreamTestRunner.c:734-740 | polls that find nothing leave the state unchanged |
| CompletionLoop.HostIsLoop | multistreamTestRunner.c:728-804 | along every run of the protocol the program's variables are what its loop computes from its polls |
| TestRunner.PostReceives | multistreamTestRunner.c:526-533 | posts as many receives as asked or as fit, and says how many |
| TestRunner.FindQp | multistreamTestRunner.c:746-751 | returns the first index with the QP number, or the number of QPs |
| TestRunner.NextPoll | multistreamTestRunner.c:734-740 | returns the first poll that found something or failed, skipping only empty ones |
| TestRunner.Endpoint.constructor | multistreamTestRunner.c:623-720 | fails if and only if a receive or the client's first send is refused on some QP; otherwise the protocol's initial state |
| TestRunner.Endpoint.TakeCredit | multistreamTestRunner.c:772-782 | the new credits of QP `k` alone, and whether the refill was complete |
| TestRunner.Endpoint.ClearAndPost | multistreamTestRunner.c:793-801 | the new state after clearing the bit and posting the next send, on the packed bit mask |
| TestRunner.Endpoint.HandleSend | multistreamTestRunner.c:767-769 | the new state after a SEND completion |
| TestRunner.Endpoint.HandleRecv | multistreamTestRunner.c:771-785 | the new state after a RECV completion, with the failure path |
| TestRunner.Endpoint.HandleCompletion | multistreamTestRunner.c:743-801 | the new state after any completion, rejecting unknown QPs, error statuses and unknown ids |
| TestRunner.Endpoint.HandleBatch | multistreamTestRunner.c:742-802 | the new state after a batch, stopping at the first failure |
| TestRunner.Endpoint.RunPingPong | multistreamTestRunner.c:728-804 | the new state after any sequence of polls, a failed poll included; a poll is made if and only if nothing has failed and a counter is short of `iters` |
| SingleQp.SingleEndpoint.constructor | multithreadIB.c:651-738 | fails if and only if the receives, the notification in event mode or the client's first send is refused; otherwise the single-QP initial state |
| SingleQp.SingleEndpoint.ClearAndPost | multithreadIB.c:827-836 | the new state after clearing the bit and posting the next send |
| SingleQp.SingleEndpoint.HandleCompletion | multithreadIB.c:790-837 | the new state after one completion, with the failure paths |
| SingleQp.SingleEndpoint.HandleBatch | multithreadIB.c:790-837 | the new state after a batch, stopping at the first failure |
| SingleQp.SingleEndpoint.RunPingPong | Original/rc_pingpong.c:719-800 | the new state after any sequence of polls in either mode; a round is made if and only if nothing has failed and a counter is short; in event mode each round takes exactly one event unless its wait fails |
| SingleQp.OwnerStepsLikeSingle | multistreamTestRunner.c:759-801 | on the owning QP the N-QP loop acts like the single-QP loop, on all others not at all |
| SingleQp.RunProjectsToSingle | multistreamTestRunner.c:742-801 | any run projected onto one QP moves its mask and credits as the single-QP loop does, given only the shared counters |
| SingleQp.LoopsCoincide | multithreadIB.c:746-839 | with one QP the N-QP loop and the single-QP loop agree poll by poll |
| SingleQp.SingleLoopInRun | multithreadIB.c:746-839 | in every one-QP run each program is the single-QP loop over its polls, never fails, and ends with exactly `iters` exchanges |
| Hex.PrintLength | multistreamTestRunner.c:195 | `%0<w>x` writes exactly `w` characters if and only if the value fits |
| Hex.ScanPrinted | multistreamTestRunner.c:217 | `%x` reads back what `%0<w>x` wrote, whatever follows |
| Hex.PrintedDigits | multistreamTestRunner.c:195 | `%0<w>x` writes only 0-9 and a-f, the last the lowest digit of the value |
| Hex.LargeNumbers | multistreamTestRunner.c:217 | `%x` reads all the digits; a number too large leaves its low 32 bits, one of 2^64 or more all of them set |
| Gid.GidToWire | multistreamPPSupport.c:49-55 | on a host of either byte order the text is the raw bytes in order, 32 characters and a terminator |
| Gid.WireToGid | multistreamPPSupport.c:36-47 | on a host of either byte order the same 16 bytes are restored, from any text; a group without a number repeats the word before it |
| Gid.GidRoundTrip | multistreamPPSupport.c:36-55 | reading the text of any GID gives back its 16 bytes |
| AddressLine.AddressRoundTrip | multistreamTestRunner.c:194-219 | for every address in range, parsing the printed line returns it |
| AddressLine.LinesAreDistinct | multistreamTestRunner.c:328-344 | distinct addresses print differently |
| AddressLine.LineLength | multistreamTestRunner.c:185 | the line is 51 characters and a terminator if and only if every field is in range |
| AddressLine.LineFields | multistreamTestRunner.c:195 | LID, QP number, sequence number and GID stand at characters 0, 5, 12 and 19 with colons between |
| BufferSplit.FillShares | multistreamTestRunner.c:374-379 | the share table: equal shares, the remainder to index 0 |
| BufferSplit.SharesSum | multistreamTestRunner.c:374-379 | the shares add up to the size |
| BufferSplit.SliceInRegion | multistreamTestRunner.c:514-519 | every slice lies inside the registered region |
| BufferSplit.SlicesDisjoint | multistreamTestRunner.c:514 | slices 1 to `n - 1` do not overlap |
| BufferSplit.TilesExactly | multistreamTestRunner.c:511-519 | all slices tile the region if and only if `n` divides the size or there are fewer bytes than QPs |
| BufferSplit.OverlapExactly | multistreamTestRunner.c:514 | slices 0 and 1 have a byte in common if and only if `n` does not divide the size and slice 1 is not empty |
| BufferSplit.UnusedTail | multistreamTestRunner.c:536-542 | a byte is in no slice if and only if it is among the last `size % n` and `2 <= n <= size` |
| Handshake.TextLinesWork | multistreamTestRunner.c:313-330 | the program's text format carries every set of addresses in range |
| HandshakeReads.NeverGivesUpExactly | multistreamTestRunner.c:353 | with a read for "done" that takes what is there, no run makes an end give up if and only if there is one QP |
| Handshake.HandshakeProgresses | multistreamTestRunner.c:669-702 | with each write read whole, neither end gives up, and until both are in their loops one can move |
| Handshake.HandshakeLength | multistreamTestRunner.c:669-720 | each end's number of moves is fixed by where it is: `7 * n` for the client, `6 * n` for the server, in their loops |
| Handshake.HandshakeCompletes | multistreamTestRunner.c:669-728 | every run of the setup extends to one with both ends in their loops |
| SetupRuns.SetupFollowsProtocol | multistreamTestRunner.c:623-727 | at every moment, with the posts still to be made counted as made, both ends, the wire and the queues are where a run of the protocol has brought them |
| SetupRuns.LoopsJoinProtocol | multistreamTestRunner.c:703-728 | with both ends in their loops everything they hold is the state of that run, whatever was delivered and answered before |
| SetupRuns.OpeningSendsFindReceives | multistreamTestRunner.c:711-720 | when the client posts its send on QP `k`, QP `k` of the server is in RTS, connected to it, with exactly `rx_depth` receives of the length sent |
| SetupRuns.MessagesFindReceives | multistreamTestRunner.c:623-728 | every message under way finds connected QPs and a posted receive of its length; posted receives are the program's credits less the unhandled arrivals |
| ThreadLaunch.ServerLaunch | multithreadIB.c:946-967 | starts exactly the threads with a nonzero share, in order, up to the first connection that fails |
| ThreadLaunch.ClientLaunch | multithreadIB.c:975-1002 | starts the same threads in the same order although it advances twice on a zero share, up to the first connection that fails |
| ThreadLaunch.StartedThreads | multithreadIB.c:926-931 | all threads are started when there is a byte for each, otherwise thread 0 alone with the whole message |
| ThreadLaunch.WithShareIs | multithreadIB.c:946-1002 | the threads of a launch are those with a nonzero share, each once and in order |
| EchoIo.StrlenIsLength | NonBlockingTcpServer.cpp:106-108 | the server echoes a read up to its first NUL, the whole of it if and only if it holds none |
| EchoIo.SendVerifier | NonBlockingTcpServer.cpp:18-33 | fails if and only if a send fails before everything is out, with exactly what the earlier ones took; otherwise everything is out; for an empty buffer the result is left to the uninitialised variable |
| EchoIo.SlotTable.Accept | NonBlockingTcpServer.cpp:85-91 | the socket goes to the first empty slot; a full table drops it |
| EchoIo.SplitMessage | MultiStreamTcpClient.cpp:38-62 | the message size for each socket |
| EchoIo.SplitTotal | MultiStreamTcpClient.cpp:41-62 | the messages add up to the size if and only if there is a byte for each socket or one socket |
| EchoIo.ReceiveEcho | MultiStreamTcpClient.cpp:77-81 | the receive loop adds up what its reads return, failures included, and stops at the first sum that reaches the message size |
| EchoIo.AddedIsJoined | MultiStreamTcpClient.cpp:76-80 | `bytesRead` is the number of bytes of the chunks read |
| EchoIo.EchoIsReadExactly | MultiStreamTcpClient.cpp:77-81 | when the reads take the chunks of an echo, the loop ends exactly when the chunks taken make up the message |
| EchoIo.LoopEndsExactly | MultiStreamTcpClient.cpp:77-81 | whatever the reads return, the loop ends if and only if some of them from the first on add up to the message size |
| EchoIo.LostEchoEndsExactly | MultiStreamTcpClient.cpp:77-81 | when the connection is lost, the loop ends if and only if the whole message had come |
| EchoStreams.EchoConservation | NonBlockingTcpServer.cpp:94-112 | per connection, bytes read by the client, on their way back, in the server's hands and on their way there are in order exactly the bytes sent |
| EchoStreams.StopAndWait | MultiStreamTcpClient.cpp:73-85 | outside an exchange and at its start nothing is in flight; an exchange ends with exactly the message's bytes read |
| EchoProgress.EchoRunsAreBounded | NonBlockingTcpServer.cpp:59-115 | every run is finite: a server round and four steps at most per byte, two rounds and two steps per connection |
| EchoProgress.BytesAreCopies | MultiStreamTcpClient.cpp:70-75 | the bytes of that bound are those of all copies of all messages |
| EchoTable.NothingIsDropped | NonBlockingTcpServer.cpp:79-92 | when every group fits the table and every group but the last leaves a slot free, no connection is dropped |
| EchoHangs.HungIsLongOrLost | NonBlockingTcpServer.cpp:59-115 | the pair hangs only over a message too long for the buffers or a connection the server dropped |
| EchoHangs.LongMessageJams | Stream.cpp:22-26 | a message of more than `up + down + 1` bytes has a run that leaves both ends inside a write for ever |
| EchoHangs.FullTableLoses | NonBlockingTcpServer.cpp:79-100 | a group that fills the table, with a connection after it, has a run that leaves the client waiting for ever |
| EchoHangs.NeverHangsExactly | NonBlockingTcpServer.cpp:18-33 | no run hangs before the client has finished if and only if every message has at most `up + down + 1` bytes, every group has at most as many connections as there are slots, and only the last as many |
| EchoHangs.EveryEchoCompletes | MultiStreamTcpClient.cpp:70-102 | then every run extends to one where every message has come back, byte for byte, as often as it was to be sent, and all connections are closed |

## Left out

- Device objects, protection domains, memory registration and teardown: foreign calls. Only queue capacities and QP states are kept.
- Completions with error status in the protocol, and a peer that destroys its QPs while messages are in flight. The loops in `TestRunner` and `SingleQp` do model their handling of error completions.
- DataPlane.WireIsClientFill: the adapter reads a slice at one moment, any number of times before delivery; reads and writes of single bytes at different moments are not modelled.
- EventMode.NoLostWakeup: the adapter's side of an event channel that fails, and events for a foreign queue; `SingleQp.SingleEndpoint.RunPingPong` models what the program does then.
- EchoHangs.NeverHangsExactly: socket buffers have a fixed size, the listen queue holds every waiting connection, and the end of a closed connection does not arrive later than a connection opened after it.
- EchoStreams.EchoConservation: reads are shorter than the server's buffer, since the terminator after a full-size read falls outside it, and payloads hold no NUL.
- HandshakeReads.NeverGivesUpExactly: a write never arrives in pieces; only the read that asks for more than it needs takes more than one write.
- White space, signs and `0x` prefixes that `%x` also accepts: they never occur in a printed line.
- Socket creation, name resolution and connect backoff, `Stream`, `Connector` and `Acceptor`: I/O plumbing.
- `Commands` allocation, argument parsing, printing, timing, metrics, CSV output and CPU affinity: not part of the protocols.
- `pp_mtu_to_enum`: a plain switch.
- MultiThreadTcpClient.cpp, MultiThreadTcpServer.cpp and the drafts under temp/: no further hard property.
