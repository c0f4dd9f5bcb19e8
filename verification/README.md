# lmnet: a verified model of its connection, buffer and request machinery

lmnet is a C++ socket library with a back end per platform. Most of its public classes forward calls;
what is hard is inside the back ends, where several threads, a reactor or completion port and the
kernel share queues, pools and flags. This project models those parts and proves what they are for:
bytes are sent once and in order, packets are neither lost nor doubled, requests are recycled once,
descriptors are closed once, stale completions do nothing, and shutdown drains.

Each component is modelled in up to three layers.

* Specification functions say what one operation does to a value (`Submit`, `Get`, `Complete`,
  `Register`, `Search`).
* A state machine interleaves the operations, as a rule one critical section, atomic access or system
  call to a step; where several are taken together the file says so. `Enabled`, `Step`, `ValidRun` and
  `Final` define it. The kernel is the part of the machine that may do anything within its contract:
  choose completion order and sizes, refuse calls, reuse numbers. The main lemmas are about every
  valid run.
* A class has the source's fields and does the operation in place; its methods are proved to do what
  the specification functions, or a run of the machine, say.

| file | component |
|---|---|
| `PacketOrderer.dfy` | reorder buffer of the Windows UDP server |
| `ReceiveChain.dfy` | the posted receives and retry task that feed it, and the pending count they share with sends |
| `Iocp.dfy` | request pool, workers, shutdown and partial writes of the completion port manager |
| `UnixSend.dfy` | epoll Unix-socket send queue with descriptor passing |
| `TcpClient.dfy` | Windows TCP client with its generation counter |
| `UringStream.dfy` | single-write pipeline of the io_uring TCP client and sessions |
| `UringPool.dfy` | request pool and completion callbacks of the io_uring manager |
| `Kqueue.dfy` | kqueue reactor and the send queue of its TCP client |
| `EpollServer.dfy` | accepted descriptors of the epoll TCP server |
| `PortSearch.dfy` | idle UDP port and port-pair search |
| `Common.dfy` | facts about sequences and finite sets |

`dafny verify dfyconfig.toml` checks everything.

## Where the code does not keep a promise

Each of these is in the model as the code has it, with a lemma that shows it at an input or in a run,
and one that says exactly when it happens.

* The reorder buffer can go back: a packet below the number waited for that times out, or overflows
  the buffer, moves the number waited for down and is delivered late (`GoesBack`). Delivery order is
  kept if and only if no call skips back (`RunOrderedIff`).
* A completed write reports the wrong total when a resend is refused, where the last part is counted
  twice (`RefusedResend`), and when it completes with no bytes and no error (`ZeroByteWrite`); in no
  other case (`CompletionExact`). A buffer of 4 GiB or more is sent only up to its size modulo 2^32
  (`HugeWrite`, `WriteSendsBuffer`).
* A worker can leave a stopping completion port manager with a request in use: `GetRequest` pops the
  request before it counts it, and the exit test reads the count without the lock
  (`StraddlingStop`). It happens exactly if a submitter outside a callback is between the two when the
  test is made, which takes a submission under way when the stop takes effect (`ExitLeavesWork`,
  `ShutdownDrains`).
* After `IocpManager::Exit` all workers can leave with requests in use (`ForcedStopLeavesWork`), and
  for a request no worker has in hand they can if and only if the stop was forced (`ForcedStopIff`).
* The Unix send queue drops a message when `sendmsg` fails or returns zero, and on destruction
  (`DroppedMessage`). The stream is complete if and only if that does not happen
  (`StreamRefinement`), and otherwise a prefix of each dropped message has arrived (`WhatArrives`).
* A failed `io_uring_submit` can leave its prepared entry in the ring. The request is given back all the
  same, and the next submission also sends the old entry, whose completion runs the new callback: that
  callback runs twice (`StrayDoubles`). Callbacks run once if and only if no failed submission leaves
  its entry (`LeftEntryIff`).
* The kqueue reactor removes a handler after it has stopped without telling the kernel
  (`RemoveTooLate`), which leaves filters behind exactly if the descriptor had some
  (`RemoveAfterStop`).
* If `RemoveHandler` fails in the epoll server, on the close path or in `Stop`, the descriptor is closed
  all the same, the entry stays, and the next connection that gets the number is refused
  (`FailedRemovalRun`, `FailedStopRun`). A fresh accept collides exactly with such entries
  (`NoCollision`), and at rest there are as many as removals failed (`FailuresStay`).
* A handler of the epoll server that calls `HandleConnectionClose` late can close another connection,
  which has been given its number since (`StaleCloseRun`): exactly if its own is closed and the number
  is a session again (`StaleClose`).
* The port search gives up at a hundred taken ports in a row with a pair right behind them
  (`TakenRow`), and then stays where it is, so later searches fail too (`FailureIsFinal`). It finds
  a pair if and only if one can be reached without that (`PairIsLeast`).

## Model

| member | source | states |
|---|---|---|
| `PacketOrdering.SubmitConserves` | src/platforms/windows/packet_orderer.h:62-74 | one call on any buffer: delivered packets stay delivered, the new one is added once, and only a packet buffered under the same number can be lost |
| `PacketOrdering.Conservation` | src/platforms/windows/packet_orderer.h:62-149 | any run: submitted = delivered + buffered + overwritten, as multisets of packets with their metadata |
| `PacketOrdering.DeliveredOnce` | src/platforms/windows/packet_orderer.h:62-149 | with distinct numbers, skips and late packets included: each packet is delivered or buffered, never both, never twice, unaltered |
| `PacketOrdering.SubmitBound` | src/platforms/windows/packet_orderer.h:126-149 | after every call at most `maxBufferSize_` packets are buffered, and not the one waited for |
| `PacketOrdering.AtMostOneSkip` | src/platforms/windows/packet_orderer.h:126-149 | a call skips at most one gap: the overflow loop runs at most once, and not after a timeout |
| `PacketOrdering.GapSkippedIff` | src/platforms/windows/packet_orderer.h:126-149 | by clock and count: a call skips a gap exactly if the lowest packet left after the drain is older than `gapTimeout_` or more than `maxBufferSize_` are left, and that packet is then delivered next; otherwise nothing more happens |
| `PacketOrdering.DrainConsecutive` | src/platforms/windows/packet_orderer.h:104-121 | one drain delivers consecutive numbers from the one waited for, 0 after 2^64 - 1, and then waits for the next |
| `PacketOrdering.OrderKeptIff` | src/platforms/windows/packet_orderer.h:126-149 | a call keeps the delivered numbers increasing if and only if it does not skip to a number below the one waited for |
| `PacketOrdering.RunOrderedIff` | src/platforms/windows/packet_orderer.h:104-149 | the same for whole runs, in both directions |
| `PacketOrdering.SkipsOnlyForward` | src/platforms/windows/packet_orderer.h:104-149 | if no packet is submitted below the number waited for, deliveries strictly increase across all skips, that number never decreases and nothing buffered lies below it |
| `PacketOrdering.SkippedNeverArrived` | src/platforms/windows/packet_orderer.h:130-148 | the numbers a skip passes over belong to no packet submitted so far |
| `PacketOrdering.SortedPrefix` | src/platforms/windows/packet_orderer.h:104-121 | while no gap is skipped the log is always exactly 0..next-1 and everything else is buffered above it |
| `PacketOrdering.ReorderingSorts` | src/platforms/windows/packet_orderer.h:62-121 | any arrival order of 0..n-1 is delivered as 0..n-1, each number with its own packet, and the buffer ends empty |
| `PacketOrdering.ReorderedInTime` | src/platforms/windows/packet_orderer.h:62-149 | the same by positions and clocks: if no packet is overtaken by more than `maxBufferSize_` others, and none is older than `gapTimeout_` at a call while a number below it is missing |
| `PacketOrdering.GoesBack` | src/platforms/windows/packet_orderer.h:130-140 | a concrete run of four packets in which the number waited for goes from 3 back to 1 and 0 is delivered after 1 and 2 |
| `PacketOrdering.PacketOrderer.SubmitPacket` | src/platforms/windows/packet_orderer.h:62-74 | the call in place is `Submit`; it respects the bound and only appends to what was delivered |
| `PacketOrdering.PacketOrderer.DeliverConsecutivePackets` | src/platforms/windows/packet_orderer.h:104-121 | the loop is `Drain` |
| `PacketOrdering.PacketOrderer.EnforceConstraints` | src/platforms/windows/packet_orderer.h:126-149 | timeout, then overflow loop, which terminates |
| `PacketOrdering.PacketOrderer.constructor` | src/platforms/windows/packet_orderer.h:44-50 | a new orderer is empty and waits for 0 |
| `ReceiveChain.ReceivesBounded` | src/platforms/windows/udp_server_impl.cpp:189-257 | any interleaving: receives posted, in hand or queued for retry never exceed `CONCURRENT_RECEIVES`; while the server runs they are that many less one for each refusal that found a retry arranged, and at least one; at most one retry task is queued |
| `ReceiveChain.AllChainsIff` | src/platforms/windows/udp_server_impl.cpp:238-257 | while the server runs all its receives are still going if and only if no refused one met a set retry flag |
| `ReceiveChain.PendingExact` | src/platforms/windows/udp_server_impl.cpp:120-143 | with receives and sends from any threads, `pendingIo_` is exactly posted receives, outstanding sends, running callbacks and calls not yet answered; so its zero guard never fires, and zero means nothing is outstanding |
| `ReceiveChain.ArrivalsExact` | src/platforms/windows/udp_server_impl.cpp:211-236 | what reaches `SubmitPacket` in any run is exactly, in order, the good packets whose callbacks found the server running, each with the number its receive was posted under and its own clock readings |
| `ReceiveChain.ReceivedOnce` | src/platforms/windows/udp_server_impl.cpp:197-236 | hence each of these packets is, exactly once, delivered or buffered, and nothing else is |
| `ReceiveChain.NothingBeginsStopped` | src/platforms/windows/udp_server_impl.cpp:197-245 | after the stop no retry is arranged, no number taken and nothing new counted |
| `ReceiveChain.ReceiveRound` | src/platforms/windows/udp_server_impl.cpp:211-257 | a whole completion, uninterrupted: its packet to the orderer, the next receive in its place, the callback over and uncounted |
| `ReceiveChain.RetryRound` | src/platforms/windows/udp_server_impl.cpp:247-253 | a whole retry task, uninterrupted: the flag cleared and the chain carried on |
| `ReceiveChain.UninterruptedRun` | src/platforms/windows/udp_server_impl.cpp:197-257 | what `SubmitReceive` does if nothing intervenes, as a run of the machine |
| `ReceiveChain.UdpServer.SubmitReceive` | src/platforms/windows/udp_server_impl.cpp:197-257 | the method in place makes that run, refusal and retry included |
| `ReceiveChain.SendRun` | src/platforms/windows/udp_server_impl.cpp:294-346 | what `Send` does if nothing intervenes, as a run of the machine |
| `ReceiveChain.UdpServer.Send` | src/platforms/windows/udp_server_impl.cpp:294-346 | the method in place makes that run; a refused send is not counted |
| `Iocp.GetHolds` | src/platforms/windows/iocp_manager.cpp:131-157 | a request handed out was not in use; none is handed out exactly when max(4*entries, entries+64) are in use |
| `Iocp.PutHolds` | src/platforms/windows/iocp_manager.cpp:159-167 | giving back a request in use keeps the partition |
| `Iocp.AllFree` | src/platforms/windows/iocp_manager.cpp:131-167 | with nothing in use every request ever allocated is in the free list |
| `Iocp.PoolPartition` | src/platforms/windows/iocp_manager.cpp:131-223 | over all runs free and in-use requests are duplicate-free, disjoint and together the pool, `activeRequests_` is the number in use but for the request being popped or pushed, and no request is given back twice |
| `Iocp.CallbackOnce` | src/platforms/windows/iocp_manager.cpp:192-209 | any run, with partial resubmits and submissions from callbacks: each accepted request's callback has not run while the kernel has it and has run exactly once when it is given back; a refused one never runs |
| `Iocp.ShutdownDrains` | src/platforms/windows/iocp_manager.cpp:82-223 | any number of workers, any interleaving, if the stop is not forced and no submitter outside a callback is between popping and counting when it takes effect: when all workers have left, nothing is in use, every request is free, and every submission was refused or had its callback run exactly once |
| `Iocp.ExitLeavesWork` | src/platforms/windows/iocp_manager.cpp:182-190 | when a worker leaves on a count of zero, a request is left in use if and only if such a submitter is between popping and counting, and then just that one |
| `Iocp.StraddlingStop` | src/platforms/windows/iocp_manager.cpp:151-155 | a run in which it happens |
| `Iocp.DrainedIsStable` | src/platforms/windows/iocp_manager.cpp:182-190 | once stopped with nothing in use, nothing comes into use again |
| `Iocp.ForcedStopLeavesWork` | src/platforms/windows/iocp_manager.cpp:125-129 | any number of workers: a request taken before a forced stop can be in use when all of them have left |
| `Iocp.ForcedStopIff` | src/platforms/windows/iocp_manager.cpp:183-185 | from any stopped state with a request in use that no worker has in hand: all workers can leave with it still in use if and only if the stop was forced |
| `Iocp.CompletionExact` | src/platforms/windows/iocp_manager.cpp:273-296 | one WRITE completion: what was sent is a prefix of the buffer; a request is resent exactly if part of it was sent and the resend is accepted, and it then shrinks; otherwise it reports once, with the error of the completion or else of the resend, and with the bytes really sent exactly outside two cases |
| `Iocp.ErrorReported` | src/platforms/windows/iocp_manager.cpp:273-296 | any completions: the callback runs at most once, and is told of an error if and only if some completion or resend had one |
| `Iocp.RefusedResend` | src/platforms/windows/iocp_manager.cpp:279-293 | one byte of two sent, the resend refused: two reported |
| `Iocp.ZeroByteWrite` | src/platforms/windows/iocp_manager.cpp:288-293 | a completion with no bytes and no error reports the whole size |
| `Iocp.HugeWrite` | src/platforms/windows/iocp_manager.cpp:487-488 | one byte more than 4 GiB: one byte is sent and reported without error |
| `Iocp.WriteSendsBuffer` | src/platforms/windows/iocp_manager.cpp:273-296 | however the kernel splits a successful write, the callback runs once with the number of bytes sent, and the bytes are the buffer in order if and only if its size fits 32 bits |
| `Iocp.IocpRequest.constructor` | src/platforms/windows/iocp_manager.cpp:480-489 | a new write: pointer at the start, length the size cast to 32 bits |
| `Iocp.IocpRequest.HandleWrite` | src/platforms/windows/iocp_manager.cpp:273-296 | the WRITE case in place |
| `Iocp.IocpManager.constructor` | src/platforms/windows/iocp_manager.cpp:33-57 | all requests free, limit max(4*entries, entries+64) |
| `Iocp.IocpManager.GetRequest` | src/platforms/windows/iocp_manager.cpp:131-157 | last free request, or a new one while the pool may grow, else none |
| `Iocp.IocpManager.PutRequest` | src/platforms/windows/iocp_manager.cpp:159-167 | the request is free again and no longer counted |
| `Iocp.IocpManager.SubmitOperation` | src/platforms/windows/iocp_manager.cpp:327-356 | a failed submission leaves the same requests in use |
| `Iocp.IocpManager.SubmitCloseRequest` | src/platforms/windows/iocp_manager.cpp:549-575 | the callback runs if a request was to be had, and may itself submit; the close holds no request after the call |
| `UnixSend.PartialSend` | src/platforms/linux/epoll/unix_server_impl.cpp:226-239 | whatever part `sendmsg` takes, that part followed by what the updated entry will send is what the entry would have sent, descriptors on the first byte only |
| `UnixSend.EncodeIsRest` | src/platforms/linux/epoll/unix_server_impl.cpp:199-224 | a fresh entry sends the message's encoding: its data, or one zero byte if there is none |
| `UnixSend.StreamRefinement` | src/platforms/linux/epoll/unix_server_impl.cpp:126-257 | for all interleavings and partial sends: wire plus encoding of what is queued equals the concatenated encodings of all queued messages, descriptors with the first byte of their message, if and only if no message was dropped |
| `UnixSend.WhatArrives` | src/platforms/linux/epoll/unix_server_impl.cpp:187-284 | drops included: the wire is, in queue order, all of every message sent, a proper prefix of every one dropped, and what was sent of the front one; one drop drops one message |
| `UnixSend.DroppedMessage` | src/platforms/linux/epoll/unix_server_impl.cpp:258-275 | a run in which a queued message never arrives |
| `UnixSend.DescriptorsLinear` | src/platforms/linux/epoll/unix_server_impl.cpp:178-296 | any run: each open duplicate has exactly one holder, every close hits an open duplicate and nothing else, a send attaches only open ones, and nothing stays open once nobody is at work |
| `UnixSend.CloseHits` | src/platforms/linux/epoll/unix_server_impl.cpp:298-306 | one close step: it closes an open duplicate, never a foreign descriptor |
| `UnixSend.CarriedOpen` | src/platforms/linux/epoll/unix_server_impl.cpp:213-224 | descriptors attached to a message are still open |
| `UnixSend.NothingLeft` | src/platforms/linux/epoll/unix_server_impl.cpp:178-185 | with an empty queue and nobody at work no duplicate is open |
| `UnixSend.FrontNeverChanges` | src/platforms/linux/epoll/unix_server_impl.cpp:241-248 | with a single consumer the comparison of the front entry never fails |
| `UnixSend.ProcessKeeps` | src/platforms/linux/epoll/unix_server_impl.cpp:187-284 | the loop on its own closes each message's descriptors once and in queue order, and keeps the stream unless a send fails or returns zero |
| `UnixSend.ProcessTransfers` | src/platforms/linux/epoll/unix_server_impl.cpp:187-275 | for any kernel answers the loop does to its queue just what they do to the plain messages: each answer takes that much of the front one, drops it, or ends the loop |
| `UnixSend.ProcessSends` | src/platforms/linux/epoll/unix_server_impl.cpp:187-252 | sends that take something empty the queue within as many rounds as there are bytes: all on the wire, every descriptor closed |
| `UnixSend.ProcessIsRun` | src/platforms/linux/epoll/unix_server_impl.cpp:187-284 | the loop is a run of the machine, which asks the kernel until the queue is empty, the answers are used up, or one of them ends it |
| `UnixSend.QueuedCall` | src/platforms/linux/epoll/unix_server_impl.cpp:432-475 | a whole SendWithFds, uninterrupted: the message queued with all its duplicates, open |
| `UnixSend.FailedDuplication` | src/unix_socket_utils.h:35-58 | one whose duplication fails, after any number of duplicates, leaves everything as it was |
| `UnixSend.FailedLookup` | src/platforms/linux/epoll/unix_server_impl.cpp:432-475 | so does one for an unknown session |
| `UnixSend.NothingAfterEnd` | src/platforms/linux/epoll/unix_server_impl.cpp:178-185 | after the session is forgotten no call finds it, and after the destruction nothing is queued or sent |
| `UnixSend.UnixConnectionHandler.QueueSend` | src/platforms/linux/epoll/unix_server_impl.cpp:126-135 | an entry with neither data nor descriptors is ignored, any other appended |
| `UnixSend.UnixConnectionHandler.CloseDescriptors` | src/platforms/linux/epoll/unix_server_impl.cpp:298-306 | closes the valid descriptors, in order |
| `UnixSend.UnixConnectionHandler.ClearSendQueue` | src/platforms/linux/epoll/unix_server_impl.cpp:178-185 | empties the queue and closes what it held |
| `UnixSend.UnixConnectionHandler.ProcessSendQueue` | src/platforms/linux/epoll/unix_server_impl.cpp:187-284 | the loop in place, for any kernel answers |
| `UnixSend.Descriptors.DuplicateFds` | src/unix_socket_utils.h:35-58 | all or nothing: every duplicate, or none and none left open |
| `UnixSend.Descriptors.CleanupFds` | src/unix_socket_utils.h:64-71 | the valid ones are closed and no others |
| `TcpClient.StaleTasksErasable` | src/platforms/windows/tcp_client_impl.cpp:290-476 | from any state: deleting every task whose generation is outdated when it runs leaves a valid run with the same client, I/O and listener calls |
| `TcpClient.StaleTasksHarmless` | src/platforms/windows/tcp_client_impl.cpp:49-57 | the same from the start of the client |
| `TcpClient.OneReadPerGeneration` | src/platforms/windows/tcp_client_impl.cpp:177-194 | any run, re-initialisation included: at most one read and one connect per generation between posting and handling, none for later generations, and the pending count exact |
| `TcpClient.CallbacksBracketed` | src/platforms/windows/tcp_client_impl.cpp:516-555 | after an OnClose nothing but a successful connect can come first: no second OnClose, no OnReceive, no OnError |
| `TcpClient.NothingBeforeConnect` | src/platforms/windows/tcp_client_impl.cpp:290-325 | the listener hears nothing before a first successful connect |
| `TcpClient.EverythingTold` | src/platforms/windows/tcp_client_impl.cpp:290-555 | the listener's history of any run, call by call and in order: data of the current generation is handed over, each end of a connection announced, with an error exactly if it was not expected |
| `TcpClient.DataDelivered` | src/platforms/windows/tcp_client_impl.cpp:369-401 | OnReceive is called once for each current read that brought data, and for nothing else |
| `TcpClient.RequestsAccounted` | src/platforms/windows/tcp_client_impl.cpp:245-357 | any run: requests posted are in the kernel or completed, completions are in their callback or over, and tasks queued wait or have run; which calls post and which completions queue a task |
| `TcpClient.AlwaysReading` | src/platforms/windows/tcp_client_impl.cpp:327-401 | a running client with a connection has exactly one read posted, queued or with the listener |
| `TcpClient.GenerationMoves` | src/platforms/windows/tcp_client_impl.cpp:105-170 | the generation moves exactly when the client ends or its socket is replaced; what is then left of it |
| `TcpClient.ConnectAnswered` | src/platforms/windows/tcp_client_impl.cpp:202-325 | which events answer a waiting Connect, with success exactly for its own completion without an error, and otherwise with which error |
| `TcpClient.TcpClientImpl.ReInit` | src/platforms/windows/tcp_client_impl.cpp:105-170 | next generation; on success no longer connected |
| `TcpClient.TcpClientImpl.Connect` | src/platforms/windows/tcp_client_impl.cpp:202-288 | up to the wait, with the refused case |
| `TcpClient.TcpClientImpl.HandleConnect` | src/platforms/windows/tcp_client_impl.cpp:290-325 | a stale result is ignored, a failed one re-initialises, a good one connects and posts a read |
| `TcpClient.TcpClientImpl.SubmitRead` | src/platforms/windows/tcp_client_impl.cpp:327-367 | a refused read closes the client |
| `TcpClient.TcpClientImpl.HandleReceive` | src/platforms/windows/tcp_client_impl.cpp:369-401 | which results reach the listener and which close the client |
| `TcpClient.TcpClientImpl.HandleSend` | src/platforms/windows/tcp_client_impl.cpp:465-476 | a failed send of the current generation closes the client |
| `TcpClient.TcpClientImpl.Close` | src/platforms/windows/tcp_client_impl.cpp:478-514 | next generation; the listener is told once, if connected |
| `TcpClient.TcpClientImpl.HandleClose` | src/platforms/windows/tcp_client_impl.cpp:516-545 | the same for closing from inside |
| `UringStream.StreamConserved` | src/platforms/linux/io_uring/tcp_client_impl.cpp:196-294 | any senders, any partial writes: at most one write in flight, `writeInFlight_` exactly while the queue is non-empty, and bytes written plus unwritten queue equal everything given to Send |
| `UringStream.NothingStranded` | src/platforms/linux/io_uring/tcp_client_impl.cpp:231-294 | at rest everything given to Send is on the wire, in order |
| `UringStream.CanAlwaysFinish` | src/platforms/linux/io_uring/tcp_client_impl.cpp:231-294 | wherever it was interrupted, an open pipeline can go on without another Send until everything is on the wire |
| `UringStream.IoUringClient.Send` | src/platforms/linux/io_uring/tcp_client_impl.cpp:196-218 | refused unless running with a valid socket; otherwise queues, and says who must submit |
| `UringStream.IoUringClient.SubmitNextWrite` | src/platforms/linux/io_uring/tcp_client_impl.cpp:231-245 | the front of the queue, or the flag cleared |
| `UringStream.IoUringClient.HandleWriteComplete` | src/platforms/linux/io_uring/tcp_client_impl.cpp:252-288 | negative, zero, partial and full completions: the new pipeline, who posts the next write, and whether to close |
| `UringStream.IoUringClient.Close` | src/platforms/linux/io_uring/tcp_client_impl.cpp:296-314 | the first close empties the pipeline and gives the socket up |
| `UringPool.CallbackExactlyOnce` | src/platforms/linux/io_uring/io_uring_manager.cpp:229-354 | with re-entrant submission, if no failed submission leaves its entry in the ring: a call that returns false has run its callback exactly once by then, one that returns true runs it exactly once, when reaped |
| `UringPool.LeftEntryIff` | src/platforms/linux/io_uring/io_uring_manager.cpp:327-353 | from any good state, some callback can run twice if and only if the refused submission leaves its entry in the ring |
| `UringPool.StrayDoubles` | src/platforms/linux/io_uring/io_uring_manager.cpp:327-353 | a run in which it does: the callback's request is free again while it runs the second time |
| `UringPool.NeverReusedEarly` | src/platforms/linux/io_uring/io_uring_manager.cpp:125-189 | free and in-use requests partition the pool; none is free while the kernel has it or its callback runs, and it holds its submitter's callback until then |
| `UringPool.NothingTakenAfterShutdown` | src/platforms/linux/io_uring/io_uring_manager.cpp:292-320 | after the shutdown a call gets no request and changes nothing but its own stage |
| `UringPool.SubmitKeeps` | src/platforms/linux/io_uring/io_uring_manager.cpp:292-320 | one submission, from any good state |
| `UringPool.IoUringManager.constructor` | src/platforms/linux/io_uring/io_uring_manager.cpp:65-91 | all requests free |
| `UringPool.IoUringManager.GetRequest` | src/platforms/linux/io_uring/io_uring_manager.cpp:179-189 | the last free request, none if there is none |
| `UringPool.IoUringManager.SubmitOperation` | src/platforms/linux/io_uring/io_uring_manager.cpp:292-354 | a failed call runs its callback once and leaves the pool as it was; a successful one runs nothing |
| `UringPool.IoUringManager.HandleCompletion` | src/platforms/linux/io_uring/io_uring_manager.cpp:142-168 | the stored callback, then the request back |
| `KqueueReactor.ChangesReachMask` | src/platforms/darwin/event_reactor.cpp:281-296 | the change list takes any recorded mask to any wanted one, deletes only what is there, and is empty only if both masks are |
| `KqueueReactor.RegisterKeeps` | src/platforms/darwin/event_reactor.cpp:171-204 | registering keeps the mirror; it succeeds exactly if the reactor runs, the descriptor is new and the kernel takes the filters, if any; a failed call changes nothing |
| `KqueueReactor.ModifyKeeps` | src/platforms/darwin/event_reactor.cpp:235-260 | modifying keeps the mirror; it succeeds exactly if the descriptor is registered and nothing changes, or the kqueue is open and the kernel agrees, a missing entry being forgiven when nothing is wanted; a failed call changes nothing |
| `KqueueReactor.RemoveKeeps` | src/platforms/darwin/event_reactor.cpp:206-233 | removing keeps the mirror and leaves no filter while the reactor runs; it fails exactly for an unknown descriptor, or on an error other than ENOENT and EBADF, and then changes nothing |
| `KqueueReactor.MirrorRun` | src/platforms/darwin/event_reactor.cpp:171-311 | after any calls, the reactor's own end included, both maps have the same keys; while it runs the kernel's filters are the recorded masks, closed descriptors included, and later those removed too late are the only others |
| `KqueueReactor.RecordedMasks` | src/platforms/darwin/event_reactor.cpp:171-311 | after any calls, which masks the next one leaves on record, and so in the kernel |
| `KqueueReactor.RemoveAfterStop` | src/platforms/darwin/event_reactor.cpp:222-230 | after the stop a removal succeeds and leaves filters in the kernel exactly if the kqueue is open and the descriptor had some |
| `KqueueReactor.RemoveTooLate` | src/platforms/darwin/event_reactor.cpp:43-60 | a run in which it does |
| `KqueueReactor.EventReactor.constructor` | src/platforms/darwin/event_reactor.cpp:37-42 | a started reactor has no handlers, and the mirror holds |
| `KqueueReactor.EventReactor.ApplyEvents` | src/platforms/darwin/event_reactor.cpp:262-311 | refuses without a kqueue, builds and applies the change list; ENOENT and EBADF are forgiven when removing |
| `KqueueReactor.EventReactor.RegisterHandler` | src/platforms/darwin/event_reactor.cpp:171-204 | the call in place |
| `KqueueReactor.EventReactor.ModifyHandler` | src/platforms/darwin/event_reactor.cpp:235-260 | the call in place |
| `KqueueReactor.EventReactor.RemoveHandler` | src/platforms/darwin/event_reactor.cpp:206-233 | the call in place |
| `KqueueClient.InterestFollowsQueue` | src/platforms/darwin/tcp_client_impl.cpp:68-149 | all interleavings: a non-empty queue implies `writeEventsEnabled_`; registered interest equals the flag unless somebody still owes a `ModifyHandler`, of which there is one for each change of the flag; no byte given to Send lost, doubled or reordered |
| `KqueueClient.ProcessKeeps` | src/platforms/darwin/tcp_client_impl.cpp:103-149 | the drain loop on its own, for any kernel answers: the stream is kept, the flag follows the queue, and the reactor is told exactly when the flag changed |
| `KqueueClient.ProcessSends` | src/platforms/darwin/tcp_client_impl.cpp:103-149 | how many bytes any answers send; the queue is emptied, and the flag turned off, exactly if every message is taken whole |
| `KqueueClient.ProcessIsRun` | src/platforms/darwin/tcp_client_impl.cpp:103-149 | the loop is a run of the machine |
| `KqueueClient.TcpClientHandler.QueueSend` | src/platforms/darwin/tcp_client_impl.cpp:81-96 | queues, sets the flag, and says whether the reactor must be told |
| `KqueueClient.TcpClientHandler.ProcessSendQueue` | src/platforms/darwin/tcp_client_impl.cpp:103-145 | the loop in place |
| `EpollServer.TablesHoldOpenFds` | src/platforms/linux/epoll/tcp_server_impl.cpp:309-350 | with numbers reused at will: both session maps agree, and every number in them is open and still the same connection; so is every one in the reactor whose removal did not fail |
| `EpollServer.NoCollision` | src/platforms/linux/epoll/tcp_server_impl.cpp:402-433 | a fresh accept finds the session maps free, and its place in the reactor free exactly if no removal of the number failed |
| `EpollServer.AdmittedIff` | src/platforms/linux/epoll/tcp_server_impl.cpp:402-433 | whatever other threads do, an accepted connection is registered exactly if registration works and no removal of its number failed; it then becomes the session of its number, and is closed otherwise |
| `EpollServer.ClosedOnce` | src/platforms/linux/epoll/tcp_server_impl.cpp:525-561 | however Stop and closes race, removals failing or not: no connection is closed or announced twice, and no descriptor of other code is closed |
| `EpollServer.AllAnnounced` | src/platforms/linux/epoll/tcp_server_impl.cpp:525-561 | the connections announced are exactly those HandleConnectionClose took out of the session map, each once, but for those on their way |
| `EpollServer.CloseHits` | src/platforms/linux/epoll/tcp_server_impl.cpp:541-543 | removals failing or not, the number about to be closed still stands for the connection it was taken for |
| `EpollServer.NothingLeaks` | src/platforms/linux/epoll/tcp_server_impl.cpp:309-350 | at rest with no sessions every connection accepted was closed exactly once, and the reactor has exactly what it failed to remove |
| `EpollServer.FailuresStay` | src/platforms/linux/epoll/event_reactor.cpp:210-237 | at rest the reactor has as many entries as removals failed, on the close path and in Stop together |
| `EpollServer.FailedRemovalRun` | src/platforms/linux/epoll/event_reactor.cpp:221-231 | a close whose removal fails or not: only then is the next connection with the number refused |
| `EpollServer.FailedStopRun` | src/platforms/linux/epoll/tcp_server_impl.cpp:324-328 | the same in Stop |
| `EpollServer.StaleClose` | src/platforms/linux/epoll/tcp_server_impl.cpp:525-539 | a handler's late close takes another connection, always a newer one, exactly if its own is closed and the number is a session again |
| `EpollServer.StaleCloseRun` | src/platforms/linux/epoll/tcp_server_impl.cpp:112-130 | a run in which it does |
| `EpollServer.TcpServer.CloseFd` | src/platforms/linux/epoll/tcp_server_impl.cpp:543 | close takes whatever the number stands for |
| `EpollServer.TcpServer.HandleAccept` | src/platforms/linux/epoll/tcp_server_impl.cpp:402-433 | accept, register, insert, or close if registration fails; the invariant is kept |
| `EpollServer.TcpServer.AcceptClient` | src/platforms/linux/epoll/tcp_server_impl.cpp:402-433 | the same steps in place, whatever the tables hold |
| `EpollServer.AcceptIsRun` | src/platforms/linux/epoll/tcp_server_impl.cpp:402-433 | and that is three steps of the machine |
| `EpollServer.TcpServer.HandleConnectionClose` | src/platforms/linux/epoll/tcp_server_impl.cpp:525-561 | unknown numbers are ignored, known ones taken out of the maps, closed and announced whatever RemoveHandler returns |
| `EpollServer.CloseIsRun` | src/platforms/linux/epoll/tcp_server_impl.cpp:525-561 | and that is four steps of the machine |
| `EpollServer.TcpServer.Stop` | src/platforms/linux/epoll/tcp_server_impl.cpp:309-326 | the loop is a run of the machine; every session is closed whatever RemoveHandler returns, and none announced |
| `EpollServer.TcpServer.constructor` | src/platforms/linux/epoll/tcp_server_impl.h:62-68 | a new server holds nothing |
| `PortSearch.SearchMeans` | src/platforms/posix/port_utils.cpp:25-59 | one search finds the first port that is not taken, and gives up only at a hundred taken ports, a failing socket, or the 16-bit wrap |
| `PortSearch.SearchNearest` | src/platforms/posix/port_utils.cpp:31-50 | in any world, port 0 refused included, the port found is the nearest one not taken, going up and around |
| `PortSearch.EndsIff` | src/platforms/posix/port_utils.cpp:31-52 | the probe loop ends if and only if it is far enough from the end of the range or some port is not taken |
| `PortSearch.PairIsLeast` | src/platforms/posix/port_utils.cpp:70-94 | a non-zero result is the least adjacent free pair at or after the start and nextPort ends two above it; there is a result if and only if some pair can be reached without a hundred taken ports in a row or a failing socket |
| `PortSearch.PairSound` | src/platforms/posix/port_utils.cpp:88-89 | in any world a non-zero result is a pair and nextPort is just above it |
| `PortSearch.TakenRow` | src/platforms/posix/port_utils.cpp:52-55 | from any start, a pair behind n taken ports is found if and only if n is less than 100 |
| `PortSearch.PairsDisjoint` | src/platforms/posix/port_utils.cpp:70-94 | two successful searches in a row give disjoint, increasing pairs |
| `PortSearch.FailureIsFinal` | src/platforms/posix/port_utils.cpp:52-55 | after a failure either the counter has wrapped or every later search fails and changes nothing |
| `PortSearch.PortUtils.GetIdleUdpPortUnlocked` | src/platforms/posix/port_utils.cpp:25-59 | the probe loop with its 16-bit counter, in every world in which it ends |
| `PortSearch.PortUtils.GetIdleUdpPort` | src/platforms/posix/port_utils.cpp:64-68 | one search |
| `PortSearch.PortUtils.GetIdleUdpPortPair` | src/platforms/posix/port_utils.cpp:70-94 | the pair loop; it ends because each search gets nearer to a port where it must stop |
| `PortSearch.PortUtils.constructor` | src/platforms/posix/port_utils.h:31-32 | the search starts at port 10000 |

## Left out

What each model assumes of its surroundings:

- Every back end: lmcore's `TaskQueue` and `DataBuffer` are not part of this model; buffers are byte sequences nobody mutates after sending, listeners are present, and branches for a missing task queue, listener or callback are not taken. Clock readings are inputs and need not be related to each other.
- Every back end: stops that wait (`WaitForPendingIo`, joining workers, `SubmitExitRequest`) are modelled by the state they wait for; that they are woken is not claimed.
- Every back end: the kernel returns no more bytes than it was offered; the classes treat a larger count as a full send.
- OrderKeptIff: as for all order lemmas of the reorder buffer, sequence numbers stay below 2^64 - 1, so the 64-bit counter does not wrap; conservation and the bound are proved with the wrap.
- ReceivedOnce: the receive counter is unbounded, that is, fewer than 2^64 receives are posted; the model starts the server once.
- ShutdownDrains: after the stop only completion callbacks begin submissions. No EXIT request is ever submitted in the code and there is none in the model.
- CompletionExact: completions carry at most the bytes offered.
- StreamRefinement: one connection and one consuming reactor thread; `EnableWriteEvents` and `DisableWriteEvents` are left out, because the epoll handlers test the queue and clear the flag in separate steps and the flag does not follow the queue there.
- DuplicateFds: `dup` returns a number that is not open, or fails.
- StaleTasksErasable: API calls and tasks are indivisible, except that a receive task is split where it calls the listener; tasks may run in any order; the kernel accepts nothing on an invalid socket.
- StreamConserved: one lifetime, from Init to Close or to the first failed, refused or zero-byte write.
- CallbackExactlyOnce: the manager is not torn down while requests are out; the early return of the descriptor-sending request on other than Unix sockets is not modelled.
- MirrorRun: a `kevent` call applies all of its changes or none, and the number of a descriptor closed while registered comes back only after its handler is removed.
- InterestFollowsQueue: `GetEvents` followed by `ModifyHandler` is one step and `ModifyHandler` succeeds.
- Stop: in the epoll server, the listening descriptor is left out; two concurrent calls of `Stop` read and clear it without a lock.
- PairIsLeast: binding port 0, which the wrapped counter reaches, is not refused, since it asks the kernel for any port; `PairSound` holds without that.
- GetIdleUdpPortPair: with port 0 refused, no failing socket and no pair at all, it is not shown whether the loop gives up at a gap or goes around for ever; the ports do not change during a search.

What the repository does that the model does not:

- The public classes (`src/tcp_client.cpp` and the like), session wrappers, logging and the interface list: they forward calls.
- The Unix client of the epoll back end and the sessions of the io_uring back end: the same code as the server handler and the client that are modelled.
- Receiving on Unix sockets: a lone zero byte with descriptors cannot be told from the placeholder, so there is no round trip to prove.
- Descriptor cleanup on a failed io_uring submission, and the order of its `SendWithFds` against `Send`: the code cleans up twice and bypasses the queue, so neither holds.
- Closing connections in the io_uring and kqueue servers: lookup and removal are separate there.
- Restarting a stopped server or client while old requests are out, except for the Windows TCP client, whose generations are for that.
- The IOCP and io_uring wrappers around `SubmitOperation` other than write and close: each only fills in a request.
