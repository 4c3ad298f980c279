# Siffleux in Dafny

Siffleux tunnels TCP connections and UDP datagrams through QUIC: a public server owns the
ingresses, a private client owns the egresses. This project models the logic that is the
repository's own — a wire codec and a set of small concurrent state machines — and proves
what holds of it in every run.

How the model is built:

- Concurrent code is a state machine over its atomic steps: a `State`, an `Event`, `Enabled`,
  `Apply`, and `Run` over any sequence of enabled events. A theorem about `Run(Init(), es)`
  is a theorem about every interleaving. Timers, I/O errors, losses and cancels are events
  that may happen whenever the code lets them; there is no clock.
- Code that updates a buffer, a table, a list or a counter in place is also there as a class
  or a method with its loops, proved against the same functions the theorems speak about.
- Sockets, QUIC and tokio appear only as ordered byte streams with finish and reset, lossy
  datagram bags, bounded and unbounded queues, and cancellation tokens. Panics that the
  code itself can cause (an index or a split out of range, an arithmetic overflow) are
  modelled as outcomes.

Files: `Bytes`, `Words`, `Utf8`, `Frames`, `FrameStream`, `Datagrams` (codec); `Subsequences`, `UdpSessions`,
`UdpConservation`, `UdpEgressLoop`, `UdpPath` (UDP); `TcpPipe`, `TcpRelay` (TCP); `Handshake`, `HandshakeRuns`,
`CommandStream` (control stream); `TunnelRegistry`, `RoundRobin` (ingress); `EgressLifecycle`,
`EgressReports`, `Backoff` (egress); `ByteCounters`.

Where the code does not do what its documentation or a reader would expect, the model follows
the code and the exact boundary is proved:

- The decoder panics if a chunk of the stream ends one or two bytes into an Auth or
  Authenticated frame; read otherwise, it inverts the encoder (`StreamDecodeInvertsEncode`).
- The documented backoff (doubling up to 30 s) is what is computed up to 61 failures in a row.
  Beyond 57 the arithmetic overflows, and where overflow wraps the delay is 0 from 62 on
  (`CheckedDelayIff`, `WrappedDelayIff`, `ScheduleIsDocumentedIff`); where overflow is checked
  the loop panics at the first failure after 58 in a row (`CheckedReconnectDelays`).
- A closed tunnel leaves the ingress's list, unless its watcher ran before it was pushed; then
  it stays forever (`ClosedTunnelIsGoneIff`, `EarlyWatcherLeaksForever`, `EarlyWatcherHappens`).
- Round robin is even to within one pick, except across the wrap of the counter, where it may
  be two (`FairAcrossWrapIff`, `WrapPicksTwice`).
- The decoder waits for the announced payload length and then goes by the lengths inside the
  frame, so it may stop short of the announced end, run past it, or panic
  (`DecodeHonoursPayloadLengthIff`, `DecodePastPayload`, `DecodePastEmptyPayload`).
- `stop` takes no lock, so the last published state may be Stopped while a process runs
  (`StoppedWhileRunning`). It is wrong exactly if it is a Stopped that was reported while
  another process was installed, announced or being stopped (`LastReportIsTrueIff`).
- A dropped tunnel does not withdraw Ready (`ReadyWithoutTunnel`): Ready means that a process
  which is installed or being stopped has connected; it is still connected exactly if it has
  not dropped since. Only without overlapping calls is that the installed process
  (`ReadyTellsIff`).
- A client is told that it is authenticated before the ingress takes its tunnel
  (`AssignedIffAccepted`, `EstablishedButUnassigned`).
- A TCP socket that is shut down does not prove completeness, after an error or after a cancel
  (`CleanShutdownProvesNothing`); a copy that ended by Ok does (`RelayIntegrity`). A shut socket
  got everything exactly if no byte was on its way or lost when it was shut
  (`ShutSocketIsCompleteIff`).

## Model

| member | source | states |
|---|---|---|
| Frames.EncodeInto | siffleux/src/common/frames/v1.rs:92-143 | the in-place encoder appends exactly the encoding of the frame |
| Frames.DecodeFrom | siffleux/src/common/frames/v1.rs:151-210 | the in-place decoder returns what the decoding function says and leaves exactly the rest in the buffer; no frame yet means the buffer is untouched |
| Frames.TakeFieldFrom | siffleux/src/common/frames/v1.rs:170-173 | a length byte and that many bytes are taken off the front, or neither is there and it panics |
| Frames.WireFormat | siffleux/src/common/frames/v1.rs:92-143 | every frame byte by byte: Ping is 3, Pong is 4, Auth and Authenticated are 0 and 1 with the length in two bytes, high byte first, and their fields in order |
| Frames.FirstByteDecides | siffleux/src/common/frames/v1.rs:151-210 | 3 and 4 are Ping and Pong, 0 and 1 wait exactly for the announced length and panic below three bytes, and any other first byte is never decoded whatever follows |
| Frames.IdsAre | siffleux/src/common/auth_key.rs:21-34 | an id is one to 255 bytes that are the UTF-8 encoding of some scalar values |
| Utf8.Utf8Iff | siffleux/src/common/auth_key.rs:21-34 | the recogniser accepts exactly the encodings of sequences of Unicode scalar values, by section 3 of RFC 3629 |
| Frames.DecodeEncode | siffleux/src/common/frames/v1.rs:92-210 | on any encoded frame followed by any bytes, decode returns that frame and leaves exactly those bytes |
| Frames.DecodeStrictPrefix | siffleux/src/common/frames/v1.rs:158-166 | on every strict prefix of an encoding decode waits, except that one or two bytes of a frame with a header make it panic |
| Frames.DecodeStable | siffleux/src/common/frames/v1.rs:151-210 | for every buffer, more input never changes a decided result; it only lengthens the rest |
| Frames.EncodePrefixFree | siffleux/src/common/frames/v1.rs:101-130 | no encoding is a prefix of another frame's encoding |
| Frames.DecodeHonoursPayloadLengthIff | siffleux/src/common/frames/v1.rs:161-191 | for Auth and Authenticated alike, valid ids or not: decode panics if and only if the inner lengths reach past the buffer, and stops at the announced end if and only if they add up to the payload length |
| Frames.DecodePastPayload | siffleux/src/common/frames/v1.rs:162-173 | a concrete Auth frame that is decoded past its announced end |
| Frames.DecodePastEmptyPayload | siffleux/src/common/frames/v1.rs:180-192 | an Authenticated frame that announces no payload and is decoded all the same |
| FrameStream.DrainPrefix | siffleux/src/common/frames/v1.rs:151-210 | draining any prefix of an encoded stream hands out exactly the whole frames in it and keeps the start of the next, or panics inside a header |
| FrameStream.StreamDecodeInvertsEncode | siffleux/src/common/frames/v1.rs:92-210 | for every list of frames and every chunking, the read loop yields exactly that list and an empty buffer if and only if no chunk ends one or two bytes into a frame with a header; otherwise it panics after a prefix of the list |
| FrameStream.EncodeAllInjective | siffleux/src/common/frames/v1.rs:92-143 | different lists of frames have different encodings |
| FrameStream.FramedReader.DrainBuffer | siffleux/src/common/tunnel.rs:130-131 | the loop that decodes until nothing is left to decode computes the drain of the buffer |
| FrameStream.FramedReader.ReadChunks | siffleux/src/common/tunnel.rs:130-131 | reading chunk by chunk computes the feed that StreamDecodeInvertsEncode speaks about |
| Datagrams.WriteDatagram | siffleux/src/common/frames/v1.rs:34-59 | the datagram is the address header and the first `size` bytes, or the slice panics |
| Datagrams.ExtractOrigin | siffleux/src/common/frames/v1.rs:61-87 | consuming the address leaves exactly the payload; too short a datagram panics |
| Datagrams.HeaderFormat | siffleux/src/common/frames/v1.rs:34-59 | the header byte by byte: 0 or 1, the address, the port with its high byte first |
| Datagrams.KindDecides | siffleux/src/common/frames/v1.rs:61-87 | what is extracted from any datagram, by its first byte and its length |
| Datagrams.DatagramRoundTrip | siffleux/src/common/frames/v1.rs:34-87 | extraction returns the payload for every address, and the same address if and only if it has no flow information and no scope |
| Datagrams.HeaderOfExtracted | siffleux/src/common/frames/v1.rs:61-87 | whatever extraction accepts is the datagram of what it returned |
| Datagrams.DatagramInjective | siffleux/src/common/frames/v1.rs:34-87 | two datagrams are equal if and only if wire address and payload are |
| UdpEgressLoop.EgressLoop.constructor | siffleux/src/client/egress/udp_egress.rs:146-151 | a new tunnel connection starts with no session and an empty table |
| UdpEgressLoop.EgressLoop.ProcessDatagram | siffleux/src/client/egress/udp_egress.rs:212-242 | a known origin is one step of the session machine, an unknown one is spawn, offer, insert; other datagrams change nothing |
| UdpEgressLoop.EgressLoop.HandleExpired | siffleux/src/client/egress/udp_egress.rs:176-180 | handling the oldest expiry message is the corresponding step of the session machine |
| UdpEgressLoop.EgressLoop.DrainBatch | siffleux/src/client/egress/udp_egress.rs:275-283 | writing a batch is one hand-over step per message, in order |
| UdpSessions.StepKeepsOwned | siffleux/src/client/egress/udp_egress.rs:156-297 | every step keeps: live sessions hold their origin, expiry messages come from dead holders, at most one each, and dead holders have announced themselves |
| UdpSessions.StepKeepsStages | siffleux/src/client/egress/udp_egress.rs:254-332 | every step keeps what each stage of a session guarantees about its reverse task and its queue |
| UdpSessions.StepKeepsOrder | siffleux/src/client/egress/udp_egress.rs:220-241 | every step keeps handed-over plus still-queued payloads a subsequence of the arrivals |
| UdpSessions.ExpiryNeverEvictsLiveSession | siffleux/src/client/egress/udp_egress.rs:156-189 | in every interleaving there is at most one expiry message per origin, from the newest session of that origin, which is dead and is the one the table maps it to; handling it removes exactly that entry |
| UdpSessions.OneLiveSessionPerOrigin | siffleux/src/client/egress/udp_egress.rs:212-242 | in every interleaving at most one forward session per origin is live |
| UdpSessions.NoOrphanReverse | siffleux/src/client/egress/udp_egress.rs:254-332 | a reverse task was started exactly if the forward session opened its socket; once a forward session ended, for any reason, its reverse task never started, has stopped or can stop; a live session loses its sender only after the loop left, which takes a close of the tunnel or a cancel in the run |
| UdpSessions.WaitingSessionCanEnd | siffleux/src/client/egress/udp_egress.rs:285-297 | a session that waits can go idle, and can end once the run has a cancel, a close of the tunnel, or the loop left and its queue is empty |
| UdpSessions.TasksCanGoOn | siffleux/src/client/egress/udp_egress.rs:156-332 | no task is stuck: sockets open or fail, started reverse tasks read replies, the loop takes any datagram, handles expiry messages and leaves after a close or a cancel |
| UdpSessions.SignalsRun | siffleux/src/client/egress/udp_egress.rs:181-189 | what tasks see as cancelled, closed or left are the events of the run |
| UdpSessions.QueuesStayBounded | siffleux/src/client/egress/udp_egress.rs:227-275 | no queue and no batch ever exceeds 128 messages |
| UdpSessions.DeadEntryIsBeingEvicted | siffleux/src/client/egress/udp_egress.rs:176-297 | a table entry of a dead session has its expiry message queued, unless the process was cancelled or the loop has left |
| UdpSessions.HandedInArrivalOrder | siffleux/src/client/egress/udp_egress.rs:220-283 | payloads handed to an origin's socket are a subsequence of those that arrived for it, across all its sessions |
| UdpConservation.PayloadsAreConserved | siffleux/src/client/egress/udp_egress.rs:212-297 | in every interleaving, per origin and payload: what arrived was handed to the target socket, is held by a session, or was lost because the session had ended, held 128 messages, ended with it in its queue, or the socket refused it |
| UdpConservation.ArrivalIsKeptIff | siffleux/src/client/egress/udp_egress.rs:224-225 | a payload for an origin in the table goes to the end of its queue if and only if the session has not ended and holds fewer than 128 messages |
| UdpConservation.BacklogCanBeHanded | siffleux/src/client/egress/udp_egress.rs:275-283 | from every reachable state there is a continuation that hands over all that a live session holds, in order and nothing else |
| Subsequences.SubseqPositions | siffleux/src/client/egress/udp_egress.rs:280-282 | what subsequence means: elements at strictly increasing positions |
| UdpPath.StepKeepsInv | siffleux/src/server/ingress/udp_ingress.rs:207-241 | every step of the path keeps, per address and payload, received plus in flight plus lost equal to sent, in both directions |
| UdpPath.OriginsAreIsolated | siffleux/src/server/ingress/udp_ingress.rs:60-100 | over a lossy reordering channel: what an origin's target socket gets is a subsequence of what arrived for that origin, all of it sent by that origin in this run, and what goes back to it was read from its own socket |
| UdpPath.PathIsConserved | siffleux/src/server/ingress/udp_ingress.rs:60-100 | end to end, per origin and payload: what was sent was handed to its own target socket, is held, was lost by a session for a named cause, is on its way or was lost by the channel; replies likewise on the way back |
| UdpPath.PathCanGoOn | siffleux/src/server/ingress/udp_ingress.rs:207-241 | anyone can send, a datagram on its way can arrive or be lost, and the tasks of the egress go on as by themselves |
| UdpPath.ReplyIsSentBack | siffleux/src/client/egress/udp_egress.rs:314-318 | a reply that a task reads can be sent back with the address of its own origin in front |
| UdpPath.ReplyGoesToItsOrigin | siffleux/src/server/ingress/udp_ingress.rs:63-69 | a datagram on its way back can be delivered and then goes to the origin it was read for |
| UdpPath.RepliesArrive | siffleux/src/server/ingress/udp_ingress.rs:63-69 | in a run without losses on the way back, once nothing is on its way every reply has reached its own origin |
| TcpPipe.MoveKeepsPipe | siffleux/src/common/protocols/v1.rs:39-153 | every move of either copy, the stream or an endpoint keeps every byte of one direction accounted for, in order |
| TcpPipe.BytesAreConserved | siffleux/src/common/protocols/v1.rs:39-153 | conservation: bytes written to the sink, held or lost by either copy, in or dropped by the stream, and unread are, in order, what the source sent; everything was written if and only if all the others are empty |
| TcpPipe.ShutdownIsCompleteIff | siffleux/src/common/protocols/v1.rs:108-152 | a sink that is shut down by Ok, error or cancel has everything if and only if nothing was on its way or lost at that moment |
| TcpPipe.DeliveredIsPrefix | siffleux/src/common/protocols/v1.rs:49-82 | what was written to the sink is a prefix of what was sent, nothing is missing while both copies run, a copy that ended by Ok is complete, finish only after the source's end |
| TcpPipe.CopyingMakesProgress | siffleux/src/common/protocols/v1.rs:50-109 | every copying move keeps the direction fault-free and strictly reduces the work left |
| TcpPipe.FaultFreeRunsComplete | siffleux/src/common/protocols/v1.rs:49-127 | after the source closed, every fault-free run is bounded, and when no copy can move everything was written to the sink and both copies ended by Ok |
| TcpRelay.StepKeepsInv | siffleux/src/common/protocols/v1.rs:26-156 | every step of any number of connections keeps the accounting and ties each stream token to the errors of its own pump |
| TcpRelay.RelayIntegrity | siffleux/src/client/egress/tcp_egress.rs:211-251 | in every run, prefix in both directions and every other byte on its way or lost at a known place; a copy to the target that ended by Ok is complete; a copy to the origin that ended by Ok is complete, or the target was never connected and nothing was written |
| TcpRelay.ShutSocketIsCompleteIff | siffleux/src/common/protocols/v1.rs:108-152 | in every run, a copy that stops and shuts its socket, for whatever reason, has written everything if and only if neither copy, the stream nor the source's socket held a byte then and none was lost before |
| TcpRelay.CancellationClosesPump | siffleux/src/common/protocols/v1.rs:69-92 | after a task of a pump failed and cancelled the stream token, or after a cancel of its parent in the run, each of its copies has ended or can end now; a copy that failed cancels the token or can do so now |
| TcpRelay.CancelHasCause | siffleux/src/common/protocols/v1.rs:26-27 | a copy that was cancelled in the run had its parent cancelled or a failure of the same pump of the same connection before it |
| TcpRelay.StagesAreEvents | siffleux/src/common/protocols/v1.rs:49-152 | how each copy ended or failed, whether the target was reached, whether the source closed, what it wrote and which parents are cancelled are exactly the events of the run |
| TcpRelay.OwnTokenIff | siffleux/src/common/protocols/v1.rs:26-27 | the stream token of a pump is cancelled if and only if one of its own two copies failed |
| TcpRelay.PumpsCanGoOn | siffleux/src/common/protocols/v1.rs:49-152 | a copy that runs can fail, read up to 65536 bytes and write all it has read; a source that has not closed can write and close; a reset stream can drop what it holds; the target can be reached or refuse |
| TcpRelay.CleanShutdownProvesNothing | siffleux/src/common/protocols/v1.rs:128-152 | runs, by an error and by a cancel, after which the target's socket was shut down and the byte that was sent is missing |
| TunnelRegistry.TunnelList.PushTunnel | siffleux/src/server/ingress/tcp_ingress.rs:62-62 | the push is the Push step of the machine and keeps its invariant |
| TunnelRegistry.TunnelList.AssignTunnel | siffleux/src/server/ingress/tcp_ingress.rs:42-65 | an assignment without interruption is the Spawn step followed by the Push step |
| TunnelRegistry.TunnelList.RemoveClosed | siffleux/src/server/ingress/tcp_ingress.rs:55-59 | the watcher's search and removal is the Fire step of the machine: it takes out its own tunnel and no other |
| TunnelRegistry.SwapRemoveExact | siffleux/src/server/ingress/tcp_ingress.rs:57-59 | swap_remove on a duplicate-free list removes exactly that element |
| TunnelRegistry.RegistryIsExact | siffleux/src/server/ingress/tcp_ingress.rs:42-65 | in every interleaving the list is duplicate-free and is exactly the pushed tunnels whose watcher has not fired after the push |
| TunnelRegistry.ClosedTunnelIsGoneIff | siffleux/src/server/ingress/udp_ingress.rs:102-121 | a pushed tunnel whose watcher has run is gone if and only if the watcher did not run before the push |
| TunnelRegistry.EarlyWatcherLeaksForever | siffleux/src/server/ingress/tcp_ingress.rs:52-62 | after an early watcher no continuation removes the tunnel |
| TunnelRegistry.EarlyWatcherHappens | siffleux/src/server/ingress/tcp_ingress.rs:52-62 | a run from the start with an early watcher: the closed tunnel is on the list then and after every continuation |
| TunnelRegistry.RegistryCanGoOn | siffleux/src/server/ingress/tcp_ingress.rs:42-65 | a tunnel can close at any time, an assignment can push it, and its watcher can then run |
| RoundRobin.Balancer.Pick | siffleux/src/server/ingress/tcp_ingress.rs:191-206 | no tunnel, one tunnel without a ticket, or the tunnel of the next ticket, and the counter wraps |
| RoundRobin.Balancer.PickMany | siffleux/src/server/ingress/udp_ingress.rs:243-258 | a burst takes consecutive tickets and hits each tunnel as often as the counting function says |
| RoundRobin.TicketsDistinct | siffleux/src/server/ingress/tcp_ingress.rs:203-203 | tickets less than one word apart are different |
| RoundRobin.PlainHitsExact | siffleux/src/server/ingress/tcp_ingress.rs:202-205 | the exact number of picks of a tunnel in a window without a wrap |
| RoundRobin.FairWithinOne | siffleux/src/server/ingress/tcp_ingress.rs:202-205 | without a wrap, or if the number of tunnels divides the word, picks differ by at most one |
| RoundRobin.FairAcrossWrapIff | siffleux/src/server/ingress/tcp_ingress.rs:202-205 | across the wrap picks differ by at most two, and by more than one exactly under an arithmetic condition on counter, picks and tunnels: the circular range with an extra pick before the wrap meets the range after it, and together they miss a tunnel |
| RoundRobin.DoubledUpIff | siffleux/src/server/ingress/tcp_ingress.rs:202-205 | that condition is equivalent to some tunnel getting an extra pick on both sides of the wrap and another on neither |
| RoundRobin.FairWithinTwo | siffleux/src/server/ingress/udp_ingress.rs:254-257 | for any window of up to one word of picks, from any counter, picks differ by at most two |
| RoundRobin.WrapPicksTwice | siffleux/src/server/ingress/tcp_ingress.rs:203-203 | with three tunnels the wrap does pick one twice while another is passed over |
| Handshake.HandlerReadKeeps | siffleux/src/server/protocols/v1.rs:25-91 | whatever bytes of the Auth frame the handler has read, it waits, panics or answers according to the two checks |
| Handshake.ClientReadKeeps | siffleux/src/client/protocols/v1.rs:41-91 | whatever bytes of the reply the client has read, it waits, panics or concludes what the handler issued |
| Handshake.StepKeepsInv | siffleux/src/server/server.rs:170-234 | every step of every connection, also a failed read, a timeout or a lost connection, and every assignment and removal keeps the agreement, unique tunnel ids and exact lists |
| Handshake.HandshakeAgreement | siffleux/src/client/protocols/v1.rs:32-63 | a client with a tunnel agrees with its handler on both ids, its key matched the ingress it asked for, nobody else has that tunnel id; a rejection is reported only for its reason; neither client nor handler sees an unexpected or malformed frame, and a handler that gives up closes with the code of its reason |
| Handshake.ListedTunnelsAreAuthorised | siffleux/src/server/server.rs:182-207 | an ingress's list is duplicate-free and is exactly the tunnels it took and that were not removed, each from a connection with that ingress's id and key |
| HandshakeRuns.AssignedIffAccepted | siffleux/src/server/ingress/tcp_ingress.rs:42-65 | in every run the tunnel of an established client of a TCP ingress is on its list if and only if the run has its assignment and no removal; for a UDP ingress the assignment must have come while it was listening |
| HandshakeRuns.RejectedIngressWasMissing | siffleux/src/server/protocols/v1.rs:32-39 | a client is told that its ingress id was rejected only if no such ingress had been assigned when its handler looked, and that its key was rejected only if the first ingress under that id has another key |
| HandshakeRuns.StagesHaveMoments | siffleux/src/server/server.rs:182-207 | a tunnel was taken if and only if some step handed it to the ingress asked for when that was a TCP ingress or listened; an id was rejected only at a step at which no such ingress was assigned |
| HandshakeRuns.FollowsRun | siffleux/src/server/server.rs:98-112 | the ingresses of the server, their keys, kinds and listening, and what each client asked for, are those of the events of the run |
| HandshakeRuns.HandlerDecides | siffleux/src/server/protocols/v1.rs:25-91 | for any number of bytes read: one or two crash the handler, less than the Auth frame makes it wait, the whole frame is answered with 401, 400, the tunnel and server id, or a failed send |
| HandshakeRuns.OtherFramesAreRefused | siffleux/src/server/protocols/v1.rs:64-77 | any other first frame is refused with 3001, what is no frame with 3999 |
| HandshakeRuns.ClientIsTold | siffleux/src/common/error.rs:162-178 | for any number of bytes read the client crashes, waits or has its tunnel; on a close it is told the key for 400, the ingress id for 401, a closed tunnel for 0 and else unknown |
| HandshakeRuns.HandlerCanGoOn | siffleux/src/server/protocols/v1.rs:79-143 | a handler that waits can give up with the code of its reason, one that issued a tunnel can ping with the byte 3 and close |
| HandshakeRuns.ServerCanGoOn | siffleux/src/server/server.rs:98-112 | anyone can dial, an ingress can be assigned, and one that was can start and stop listening |
| HandshakeRuns.ListedCanBeRemoved | siffleux/src/server/ingress/tcp_ingress.rs:55-59 | a listed tunnel can be removed, and then it alone is gone |
| HandshakeRuns.EstablishedButUnassigned | siffleux/src/server/ingress/udp_ingress.rs:41-53 | a run in which the client has its tunnel and the ingress does not |
| CommandStream.CommandLoop | siffleux/src/client/protocols/v1.rs:113-152 | the loop sends a ping per timer firing and a pong per ping received |
| CommandStream.ReactionsCount | siffleux/src/server/protocols/v1.rs:110-142 | for every list of inputs, pings sent are timer firings, pongs sent are pings received, and nothing else is sent |
| CommandStream.PingPongIsBounded | siffleux/src/server/protocols/v1.rs:95-143 | in every joint run pongs never exceed pings received, which never exceed the peer's pings; frames are read in the order sent; all frames together never exceed twice the timer firings; an end without failed sends has sent exactly what its loop sends for its inputs |
| CommandStream.LoopEndsIff | siffleux/src/client/protocols/v1.rs:113-152 | a loop still runs if and only if it was not stopped, no ping failed and, at the server, no pong failed |
| EgressReports.Egress.constructor | siffleux/src/client/egress/tcp_egress.rs:104-124 | a new egress has taken no step of the machine |
| EgressReports.Egress.Start | siffleux/src/client/egress/tcp_egress.rs:61-83 | a start call is the run of its steps in the machine; it succeeds if and only if the last report is Stopped or there is none |
| EgressReports.Egress.Connected | siffleux/src/client/egress/tcp_egress.rs:136-141 | a connect is the step of the machine; Ready is the last report |
| EgressReports.Egress.Dropped | siffleux/src/client/egress/tcp_egress.rs:169-172 | a drop is the step of the machine; Ready stays the last report |
| EgressReports.Egress.Stop | siffleux/src/client/egress/tcp_egress.rs:85-100 | a stop call is the run of its steps in the machine, also if the task was dialling; it succeeds if and only if the last report is not Stopped, and then every task has ended |
| EgressLifecycle.NoProcessIsLost | siffleux/src/client/egress/udp_egress.rs:69-106 | in every interleaving of calls an installing start finds the slot empty, and every running process is in the slot or with exactly one stop |
| EgressLifecycle.CallsCanGoOn | siffleux/src/client/egress/tcp_egress.rs:61-100 | no call is stuck in any interleaving: each can take its next step, or waits for a start that can, or for a task that can end |
| EgressLifecycle.PublishedInOrderIff | siffleux/src/client/egress/tcp_egress.rs:61-100 | the reports are a prefix of (Starting Ready* Stopped)* if and only if no start announced itself while a stop was under way; then the last report tells whether there is a process |
| EgressLifecycle.SequentialCallsPublishInOrder | siffleux/src/client/egress/tcp_egress.rs:61-198 | when calls do not overlap the reports are in order and the last one tells whether there is a process; between calls, whether one is installed |
| EgressReports.StoppedWhileRunning | siffleux/src/client/egress/tcp_egress.rs:85-100 | overlapping calls after which Stopped is the last report and a process runs |
| EgressReports.LastReportIsTrueIff | siffleux/src/client/egress/tcp_egress.rs:61-100 | in every run whatsoever a report other than Stopped means there is a process, and the last report tells whether there is one if and only if it is not a Stopped reported while another process was installed, announced or being stopped |
| EgressReports.ReadyTellsIff | siffleux/src/client/egress/tcp_egress.rs:136-172 | in every run Ready is the last report exactly if the last reporting event is a connect; that process is then installed or being stopped, and has its tunnel if and only if it has not dropped since; without an overlap the process is reported Ready exactly if it has connected since its Starting |
| EgressReports.ReadyWithoutTunnel | siffleux/src/client/egress/tcp_egress.rs:169-172 | a run after which Ready is the last report and the running process has no tunnel |
| Backoff.ReconnectDelays | siffleux/src/client/egress/tcp_egress.rs:130-196 | the reconnect loop's delay after each failed attempt is that of the failures since the last success |
| Backoff.CheckedReconnectDelays | siffleux/src/client/egress/tcp_egress.rs:130-196 | where overflow is checked the loop panics if and only if an attempt fails after more than 57 failures in a row, at the first such attempt; until then every delay is as documented |
| Backoff.CheckedDelayIff | siffleux/src/client/egress/tcp_egress.rs:181-182 | the 64-bit form is overflow-free, and then as documented, exactly up to 57 failures |
| Backoff.WrappedDelayIff | siffleux/src/client/egress/tcp_egress.rs:181-182 | with wrap-around it is as documented exactly up to 61 failures |
| Backoff.WrappedDelayVanishes | siffleux/src/client/egress/udp_egress.rs:192-193 | with wrap-around the delay is 0 from 62 failures on |
| Backoff.DelayMonotone | readme.md:166-166 | documented delays grow and lie between 100 ms and 30 s |
| Backoff.TotalWaitExact | readme.md:166-166 | the exact total wait over k failures in a row |
| Backoff.ScheduleIsDocumentedIff | siffleux/src/client/egress/tcp_egress.rs:130-196 | every failed attempt of a run is followed by the documented delay if and only if no failure comes after more than 61 in a row |
| Backoff.ScheduledDelayExact | siffleux/src/client/egress/tcp_egress.rs:130-196 | the delay after every failed attempt, with a 32-bit failure counter: as documented up to 61, else 0 |
| ByteCounters.ByteCounter.constructor | siffleux/src/common/byte_counter.rs:19-27 | a new counter is zero and hangs below its parent |
| ByteCounters.ByteCounter.AddBytesRead | siffleux/src/common/byte_counter.rs:37-43 | every counter of the chain grows by the bytes, modulo the word, and no other changes |
| ByteCounters.ByteCounter.AddBytesWrite | siffleux/src/common/byte_counter.rs:45-51 | the same for bytes written |
| ByteCounters.AddTo | siffleux/src/common/byte_counter.rs:37-51 | an uninterrupted add to an object of a tree of counters is a run of the machine: afterwards every object of the tree holds the word of the machine |
| ByteCounters.NewCounter | siffleux/src/common/byte_counter.rs:19-27 | a new object in the tree is a Create step of the machine |
| ByteCounters.AddRuns | siffleux/src/common/byte_counter.rs:37-51 | in the machine an uninterrupted add reaches exactly the counters from the root down |
| ByteCounters.AdvanceConserves | siffleux/src/common/byte_counter.rs:37-51 | one atomic add anywhere in the tree keeps every counter's balance |
| ByteCounters.CountersAreConserved | siffleux/src/common/byte_counter.rs:37-51 | at every step of every interleaving a counter is its own adds plus what its children hold plus what has reached it and not the child below, modulo the word, and exactly so without wrap-around; until it wraps it never trails its children |
| ByteCounters.TotalsAtRest | siffleux/src/common/tunnel.rs:99-123 | at rest every counter is the sum of all adds made to it and below it, modulo the word |

## Left out

- TLS, certificates and hash pinning: thin wrappers over other libraries.
- QUIC, tokio and socket internals, socket options and buffer tuning beyond the two buffer bounds that the code relies on.
- The command-line crate, `Client`, `Server::listen` and `Server::stop`: maps and endpoint I/O that would only add easy members; in particular ingresses are never drained here.
- The two copy tasks of a TCP pump are steps on a value, not objects: the copy loop itself is library code; task identity and aliasing of the streams are not captured.
- The ingress map and `assign_ingress` are part of the handshake's state, not a class of their own.
- A TCP connection that arrives when an ingress has no tunnel: it is dropped without touching any of the modelled state.
- `TcpIngress::stop` as a guarantee that accepting ends: the accept loop holds its own listener.
- Real time: timers may fire at any moment. Memory ordering: atomics are interleaved, not relaxed.
- Panics other than those named above. A panic ends the task or handler it occurs in; the release profile aborts on panic, which ends the whole server or client and is not modelled; a truncated datagram is reported by `ProcessDatagram` and does not enter the session machine.
- End of stream in the framed reader with bytes left over, which the library turns into an error.
- What a sink's application reads: the model ends with the write to its socket, and the egress sets zero linger, so unsent bytes of a closed socket may still be lost.
- UDP origins that differ only in IPv6 flow information or scope are the same origin on the wire; the ingress listens on an IPv4 socket, where that cannot occur.
- A stop call that its caller abandons while it waits: it has taken the process, whose handle is then lost, and never reports.
- Log output and error texts.
- TcpPipe.FaultFreeRunsComplete: bounds the number of copying moves; that the runtime keeps scheduling both copies is not modelled.
