# Verification of the server's protocols

One worker process of the server is modelled as a state machine whose steps are the bodies of the
functions that the epoll, worker, send, recycle and timer threads run. Invariants are proved for every
interleaving of these steps. The two data-level cores, the CRC and the bounded formatter, are verified as
loops over buffers against mathematical specifications.

| file | what it holds |
|---|---|
| Bits, Crc32 | bit strings; CRC-32 (section 8 of RFC 1952) as a remainder of polynomial division, and the table loop |
| Framing | the four-state packet receiver against a parser of the whole stream |
| Wire | packets as the send helpers build them and the receiver checks them |
| Numbers, Printf, Directives | digit generation, padding, the format loop in a bounded buffer, and the grammar of its directives |
| ThreadPool | the worker pool as a monitor with a condition variable |
| Timers | the ordered multimap of timers with its cached size and earliest key |
| ServerState | connections, lists, queues and the steps of all threads on them |
| ServerInvariant | what every reachable state satisfies |
| ConnectionPool, Incarnations, Sending, Heartbeat, Ownership | how each operation keeps its part of the invariant |
| ServerSteps, ServerRuns | every step keeps all of it; what follows for whole runs |
| Histories | what the steps of a run say about a connection, and that its fields say the same |
| Decisions | what each step decides: who is accepted, closed, answered, and when a thread can go on |
| SendPass | what a whole pass of the send thread does to the queue |
| Cadence | the heartbeat over whole runs: who is closed for silence, and when |
| WorkerQueue | the receive queue of ServerState is that of the worker pool |
| SendOrder | the order of packets, and exactly when it is kept |
| SmallRuns, SendRaces, SendFailures | runs of a small server in which order, wake-ups, ownership or integrity are lost, and exactly when |
| Socket | the connection and socket objects, updated in place, refining ServerState |

Some conventions of the model:

- A pointer to a connection is its position in the list of all connections, which never shrinks.
- `inc` in a header, and `place`, `inc`, `listener`, `enqueued`, `picks` and `wire` in a connection, are
  history: no step decides anything by them. They say which incarnation of a pooled connection stamped a
  header, and what was queued, picked and given to the kernel for it.
- A step is one critical section or handler call: closing a connection, one read or write event, one
  accept, one turn of the send loop, one freed connection, one pass of the timer thread, one heartbeat check.
- The results of `recv`, `send` and the checks of a message are parameters of the steps; the clock only moves
  forward.
- `HistoryOf` reads a run's steps, not the fields of a connection: when the client was accepted or a ping of it
  was last handled, what it sent, what was handed to the workers, when it was closed. The bounds on silent clients
  and the recycle delay are stated on it.
- A worker checks the sequence number in one step and handles the message in another. The recycle delay
  appears as the condition that a connection is not freed while a worker handles a message that passed the
  check.

Where the code and its comments disagree the code is followed: the packet header starts with the length
(`_include/ngx_comm.h:277-283`), not with the message code as the comments beside the canned packet say; and
a socket accepted over the limit is not closed (`net/ngx_c_socket_accept.cpp:96-101`) although the comment
above the check says so.

Three properties hold only under a condition, which is proved to be the right one:

- Packets of one connection start in the order of `msgSend` exactly as long as the send thread picks no message
  out of turn (`SendOrder.OrderIffInTurn`). That is guaranteed when no write event finishes a packet in the
  middle of a pass (`SendOrder.PacketsStartInOrder`), and fails otherwise (`SendRaces.PacketsCanOvertake`).
- No message is stranded as long as the write handler is one step. It posts the semaphore before it
  decrements `iThrowsendCount`; taken apart there, the second half strands a message exactly when the semaphore
  is back to zero and the send thread has passed over one (`SendRaces.ReleaseStrands`,
  `SendRaces.SplitHandlerStrands`).
- Blocks are owned once and packets stay whole as long as a connection is closed right after its send failed for
  good or its event carried an error bit. The write handler keeps the send fields consistent exactly when its send
  does not fail for good (`SendFailures.WriteEventKeepsSendOk`), the error-bit branch never does
  (`SendFailures.ErrorBitsBreakSendOk`), and a pick loses a block exactly when `psendMemPointer` was not null
  (`Ownership.PickOwnsOnce`); `SendFailures.ErrorBitsLoseBlock` and `SendFailures.FailedWriteGarbles` are runs in
  which the send thread gets there first.

A packet is sent by its length field, not by the size of its buffer. What is proved about the bytes on the wire is
about the declared part of each packet, and `Wire.DeclaredWhole` says that for the send helpers this is the whole
packet exactly for bodies of up to 65527 bytes.

## Model

| member | source | states |
|---|---|---|
| Crc32.RemainderUnique | misc/ngx_c_crc32.cpp:44-73 | division by the polynomial leaves at most one 32-bit remainder, so the reference CRC is well defined |
| Crc32.FeedBitsIsRemainder | misc/ngx_c_crc32.cpp:54-59 | shifting a message through the register yields exactly the remainder of start value and message |
| Crc32.ReflectLeftStep | misc/ngx_c_crc32.cpp:56-60 | one left-shift step with a polynomial is, reflected, one right-shift step with the reflected polynomial |
| Crc32.ReflectedPolynomial | misc/ngx_c_crc32.cpp:48 | 0x04c11db7 reflected is 0xEDB88320, whose constant coefficient is 1 |
| Crc32.LookupIsEightSteps | misc/ngx_c_crc32.cpp:70-71 | one table lookup equals eight single-bit steps |
| Crc32.FeedBitsAppend | misc/ngx_c_crc32.cpp:70-71 | feeding two messages one after the other is feeding their concatenation |
| Crc32.StepsInjective | misc/ngx_c_crc32.cpp:70-71 | different registers stay different through any number of steps |
| Crc32.FeedBitsIsSteps | misc/ngx_c_crc32.cpp:70-71 | up to 32 message bits act as that many steps of register xor bits |
| Crc32.CrcIsRemainder | misc/ngx_c_crc32.cpp:65-73 | the CRC of a buffer is the one remainder of its bits behind the all-ones start, complemented |
| Crc32.BurstDetected | misc/ngx_c_crc32.cpp:65-73 | different buffers that agree outside any window of 32 bits have different CRCs |
| Crc32.FourByteBurstDetected | misc/ngx_c_crc32.cpp:65-73 | so have buffers that differ only inside four consecutive bytes |
| Crc32.CrcTable.constructor | misc/ngx_c_crc32.cpp:19-22 | a new object holds the table of the official polynomial |
| Crc32.CrcTable.Reflect | misc/ngx_c_crc32.cpp:29-42 | the loop reverses the lowest bits and clears the others |
| Crc32.CrcTable.InitTable | misc/ngx_c_crc32.cpp:44-63 | every entry is the eight-step image of its index under the reflected polynomial |
| Crc32.CrcTable.InitEntry | misc/ngx_c_crc32.cpp:53-60 | one entry is filled and no other changes |
| Crc32.CrcTable.GetCrc | misc/ngx_c_crc32.cpp:65-73 | the table loop computes the bitwise CRC of the first bytes of a buffer |
| Framing.HeaderFollowsParser | net/ngx_c_socket_request.cpp:210-288 | a complete header is dropped, emitted or kept just as the parser of the whole stream does |
| Framing.LengthDecides | net/ngx_c_socket_request.cpp:220-283 | a packet is received on, or complete, exactly for lengths of 8 to 29000; any other header is skipped |
| Framing.ReceiveFollowsParser | net/ngx_c_socket_request.cpp:59-161 | one receive moves bytes from the stream ahead to the packets behind, and loses none |
| Framing.FragmentationIndependent | net/ngx_c_socket_request.cpp:59-161 | however a stream is cut, the packets are those of the one-shot parser and the state holds its residue |
| Framing.PacketsOfFlatten | net/ngx_c_socket_request.cpp:210-313 | parsing undoes the concatenation of whole packets |
| Framing.Receiver.Recv | net/ngx_c_socket_request.cpp:172-206 | received bytes land behind those already held, inside the eight header bytes or the allocated body, and no other byte of either buffer changes |
| Framing.Receiver.RecvProc | net/ngx_c_socket_request.cpp:172-206 | bytes, nothing, an orderly close or an error, with the connection closed in the last two |
| Framing.Receiver.ReadRequestHandler | net/ngx_c_socket_request.cpp:46-168 | the handler with its pointers does one receive of the machine, hands over message header and packet, reports a kick, keeps the stamp of header completion, and writes nowhere else |
| Framing.Receiver.HeaderPhase | net/ngx_c_socket_request.cpp:210-288 | the three branches on the length, with the stamp and the packet header written into a new buffer |
| Framing.Receiver.LastPhase | net/ngx_c_socket_request.cpp:290-313 | the buffer goes to the queue or is dropped, and the receiver is back at a header |
| Wire.LongRoundTrip | logic/ngx_c_slogic.cpp:98-139 | network byte order of the crc32 field undoes itself |
| Wire.LongIsBigEndian | logic/ngx_c_slogic.cpp:98 | the four bytes of the crc32 field are its digits in base 256, highest first |
| Wire.CheckEncode | logic/ngx_c_slogic.cpp:76-153 | every packet of the send helpers passes the length and CRC checks with code and body intact |
| Wire.CheckExact | logic/ngx_c_slogic.cpp:117-153 | a received packet is accepted exactly when its crc32 field is zero without a body and the CRC of the body otherwise, and then with the code and body it carries |
| Wire.FieldDamageRejected | logic/ngx_c_slogic.cpp:127-148 | a packet of which only the crc32 field is damaged is dropped, with or without a body |
| Wire.DeclaredWhole | logic/ngx_c_slogic.cpp:90-92 | the length field never exceeds the packet, and declares all of it exactly for bodies of up to 65527 bytes |
| Wire.WireRoundTrip | logic/ngx_c_slogic.cpp:76-153 | messages sent back to back and cut anyhow arrive as sent, in order, each passing the checks |
| Wire.DamageRejected | logic/ngx_c_slogic.cpp:139-148 | a packet damaged within four consecutive body bytes is dropped |
| Wire.SendPackage | logic/ngx_c_slogic.cpp:76-107 | the helper builds message header, packet header and body in one buffer |
| Wire.FillHeaders | logic/ngx_c_slogic.cpp:86-92 | code and length are written in network byte order behind the copied message header |
| Wire.BodyCrc | logic/ngx_c_slogic.cpp:95-103 | the crc32 field is the CRC of the body, or zero without one |
| Numbers.DigitsRoundTrip | app/ngx_printf.cpp:278-313 | the digits of a number read back as the number, in base 10 and 16 |
| Numbers.NoLeadingZero | app/ngx_printf.cpp:278-313 | only zero itself starts with a zero |
| Numbers.GlyphTable | app/ngx_printf.cpp:275-276 | the digits are those of the tables, small letters for %x and capital ones for %X |
| Numbers.NumeralIsUnique | app/ngx_printf.cpp:278-313 | there is one digit string without a leading zero that stands for a number |
| Numbers.DigitsFit | app/ngx_printf.cpp:278-313 | a number has at most k digits exactly when it is below base to the k |
| Numbers.DigitsFitScratch | app/ngx_printf.cpp:271-278 | every 64-bit number fits the scratch area, in hexadecimal in 16 places |
| Numbers.FieldRoundTrip | app/ngx_printf.cpp:315-329 | a padded field reads back as its number and has exactly the width when the number fits it |
| Numbers.GenerateDigits | app/ngx_printf.cpp:278-313 | the 32-bit path and the 64-bit loops write the same digits backwards |
| Numbers.DigitLoop | app/ngx_printf.cpp:285-312 | the do-while loop stays inside the scratch area and produces all digits |
| Numbers.Pad | app/ngx_printf.cpp:315-320 | the padding loop writes what fits of the padding |
| Numbers.CopyClipped | app/ngx_printf.cpp:322-329 | the final copy writes what fits of the digits |
| Numbers.SprintfNum | app/ngx_printf.cpp:268-330 | the whole routine writes exactly what fits of the padded field and changes nothing else |
| Printf.RoundedValue | app/ngx_printf.cpp:193-213 | integer part and fraction of %f together are the value scaled and rounded half up, the carry included |
| Printf.FixedReadsBack | app/ngx_printf.cpp:185-227 | %f writes sign, padding up to the width, digits, point and exactly the digits asked for, and they read back as the rounded magnitude; without a precision, as the magnitude cut off |
| Printf.SignedReadsBack | app/ngx_printf.cpp:235-248 | a signed number is a minus sign exactly when it is negative, padding up to the width, and the numeral of its magnitude |
| Printf.ExpandReadsBack | app/ngx_printf.cpp:120-249 | so is what %d, %i, %L and %P write for their flags; %p writes sixteen capital hexadecimal digits, %s its text |
| Directives.SpecRoundTrip | app/ngx_printf.cpp:69-118 | a directive written by the grammar is read as zero flag, width, flags, precision and conversion, the last x or X deciding the letters |
| Directives.RenderDirective | app/ngx_printf.cpp:120-249 | a written directive consumes and expands one argument exactly for d, i, L, p, s, P and f, and otherwise stands for its own character |
| Directives.RenderPlain | app/ngx_printf.cpp:251-255 | text without a % sign stands for itself |
| Directives.RenderPercent | app/ngx_printf.cpp:122-125 | %% stands for one % sign |
| Printf.ReadSpecAt | app/ngx_printf.cpp:69-118 | zero flag, width, flags and precision are read as the directive's grammar says |
| Printf.Round | app/ngx_printf.cpp:193-213 | the scaling loop and the carry compute the two parts |
| Printf.PutFraction | app/ngx_printf.cpp:218-225 | point and fraction, each only if there is room |
| Printf.PutFixed | app/ngx_printf.cpp:185-227 | sign, integer part and fraction are the part of the rendering that fits |
| Printf.PutSigned | app/ngx_printf.cpp:235-248 | sign and digits are the part of the rendering that fits |
| Printf.Directive | app/ngx_printf.cpp:120-249 | each conversion writes the part of its expansion that fits |
| Printf.VsLprintf | app/ngx_printf.cpp:44-259 | the buffer gets exactly the first bytes of the unlimited rendering that fit, and nothing outside changes |
| ThreadPool.StepKeepsInv | misc/ngx_c_threadpool.cpp:96-270 | every step of every thread keeps counters, order, single delivery and covered wake-ups |
| ThreadPool.DeliveryIsExact | misc/ngx_c_threadpool.cpp:116-156 | in every run messages leave in arrival order, each is queued, held by one worker or freed, and no wake-up is lost |
| ThreadPool.InternalRunsAreBounded | misc/ngx_c_threadpool.cpp:107-160 | a pool left alone comes to rest within a computed number of steps |
| ThreadPool.SomeoneCanMove | misc/ngx_c_threadpool.cpp:107-160 | it stops for no other reason than rest |
| ThreadPool.RestMeansDelivered | misc/ngx_c_threadpool.cpp:107-160 | at rest every message that arrived was handled and freed once |
| WorkerQueue.QueueingIsEnqueue | misc/ngx_c_threadpool.cpp:222-234 | a message put behind the queue is an enqueue step of the pool |
| WorkerQueue.ReadingIsEnqueue | net/ngx_c_socket_request.cpp:290-313 | a receive that completes a packet which is no flood is an enqueue step of the pool; any other is none |
| WorkerQueue.TakingIsPop | misc/ngx_c_threadpool.cpp:135-137 | a worker that takes a message pops the front of the pool's queue |
| WorkerQueue.CheckingIsFinish | logic/ngx_c_slogic.cpp:123-176 | a worker that finds a message invalid or stale is done with it, one that does not goes on holding it |
| WorkerQueue.AnsweringIsFinish | misc/ngx_c_threadpool.cpp:155-156 | a worker that has answered a message is done with it |
| WorkerQueue.DroppingIsFinish | misc/ngx_c_threadpool.cpp:155-156 | a worker that is done frees the message it held |
| ThreadPool.CThreadPool.PushMessage | misc/ngx_c_threadpool.cpp:222-234 | the locked part of enqueueing is one step of the machine |
| ThreadPool.CThreadPool.Call | misc/ngx_c_threadpool.cpp:246-256 | the signal wakes one waiting worker if there is one |
| ThreadPool.CThreadPool.TakeJob | misc/ngx_c_threadpool.cpp:116-142 | under the mutex a worker waits or pops the front message |
| ThreadPool.CThreadPool.ClearMsgRecvQueue | misc/ngx_c_threadpool.cpp:35-50 | the queue is emptied and each message freed, in order |
| Timers.WithoutCounts | net/ngx_c_socket_time.cpp:121-151 | deletion removes all entries of one connection and keeps every other entry as often as before |
| Timers.DrainExact | net/ngx_c_socket_time.cpp:77-118 | draining returns exactly the expired entries in key order and puts their headers back, or not at all when clients are kicked at once |
| Timers.PutBackCounts | net/ngx_c_socket_time.cpp:95-102 | each of those headers is put back once |
| Timers.DrainCounts | net/ngx_c_socket_time.cpp:77-118 | for every consistent queue: the expired prefix comes out, and each header is left as often as before, or without it |
| Timers.DrainLeavesNothingExpired | net/ngx_c_socket_time.cpp:213-216 | it ends with a consistent queue in which nothing has expired |
| Timers.TimerQueue.AddToTimerQueue | net/ngx_c_socket_time.cpp:23-49 | insertion with size and earliest key kept up to date |
| Timers.TimerQueue.RemoveFirstTimer | net/ngx_c_socket_time.cpp:60-75 | the first entry goes, the cached key stays |
| Timers.TimerQueue.GetOverTimeTimer | net/ngx_c_socket_time.cpp:77-118 | the first entry is taken exactly when it has expired, and its header put back unless clients are kicked at once |
| Timers.TimerQueue.DeleteFromTimerQueue | net/ngx_c_socket_time.cpp:121-151 | the scan that restarts after each erased entry is the deletion |
| Timers.TimerQueue.MonitorPass | net/ngx_c_socket_time.cpp:194-218 | the monitor's drain loop ends and collects the expired entries |
| ConnectionPool.GetKeepsPool | net/ngx_c_socket_conn.cpp:116-149 | a connection handed out was free or is new, and lists and counters stay exact within the limit |
| ConnectionPool.QueueKeepsPool | net/ngx_c_socket_conn.cpp:170-200 | so they do when a connection enters the recycle list, once |
| ConnectionPool.RecycleKeepsPool | net/ngx_c_socket_conn.cpp:249-255 | and when it returns to the free list |
| ConnectionPool.CloseEffect | net/ngx_c_socket.cpp:434-459 | closing changes one connection, its timers and its list membership; unless it was closed before, it takes the time, bumps the sequence number and goes to the end of the recycle list |
| ConnectionPool.SweepIsFilter | net/ngx_c_socket_conn.cpp:229-258 | a recycle pass moves exactly the connections that were closed the configured wait ago or longer, in order, and keeps the others in order |
| ConnectionPool.SweepFreesEach | net/ngx_c_socket_conn.cpp:229-258 | each of them is freed once, with a new sequence number and no blocks, and no other connection is touched |
| Incarnations.HeadersStayOk | net/ngx_c_socket_conn.cpp:33-68 | stamped headers stay behind and distinguishable through every change of the connections |
| Incarnations.ReceiveKeepsHeaders | net/ngx_c_socket_request.cpp:252-254 | a message is stamped by the incarnation in use when its header is complete |
| Sending.PickKeepsSound | net/ngx_c_socket.cpp:816-907 | starting a packet asks for the bytes its length field declares, appends to the wire what the kernel took, and sets counter, pointer and EPOLLOUT together |
| Sending.WriteKeepsSound | net/ngx_c_socket_request.cpp:366-410 | a write event continues the packet in flight and clears the three together at its end |
| Sending.EnqueueKeepsAccount | net/ngx_c_socket.cpp:398-420 | queueing keeps both limits and the pending count of every connection |
| Sending.DropKeepsAccount | net/ngx_c_socket.cpp:796-807 | dropping a stale message leaves the pending counts of connections in use right although it does not decrement any |
| Sending.PickKeepsAccounted | net/ngx_c_socket.cpp:816-822 | a picked message moves from the queue to the picked ones |
| Sending.RetireKeepsStrand | net/ngx_c_socket.cpp:758-911 | no wake-up is missed when a connection goes out of use or comes into use anew |
| Heartbeat.RegisterKeepsTimers | net/ngx_c_socket_accept.cpp:165-170 | a new client gets the one entry with its header |
| Heartbeat.CloseKeepsTimers | net/ngx_c_socket.cpp:438-442 | closing a client removes its entry and no other |
| Heartbeat.DrainKeepsTimers | net/ngx_c_socket_time.cpp:90-114 | rearming keeps one entry for every client |
| Heartbeat.DropIdleKeepsHeart | logic/ngx_c_slogic.cpp:193-214 | a client that is not kicked was heard from recently enough for its new entry |
| Ownership.CloseKeepsOwned | net/ngx_c_socket.cpp:434-459 | closing frees exactly the blocks of the deleted timers |
| Ownership.ReceiveKeepsOwned | net/ngx_c_socket_request.cpp:247-307 | a block is allocated with the header and handed on or freed with the packet |
| Ownership.PickOwnsOnce | net/ngx_c_socket.cpp:816-906 | a pick keeps every block owned once exactly when the connection's send pointer was null |
| ServerSteps.CloseKeepsInv | net/ngx_c_socket.cpp:434-459 | closing restores the whole invariant even when the connection's send fields are in disorder |
| ServerSteps.StepKeepsInv | net/ngx_c_socket.cpp:391-923 | every step of every thread keeps the whole invariant |
| ServerRuns.InitialInv | net/ngx_c_socket.cpp:537-591 | pool and listening sockets start out satisfying it |
| ServerRuns.NoStaleHeader | net/ngx_c_socket_conn.cpp:33-68 | in every reachable state a header in any of the queues has the connection's sequence number exactly while the incarnation that stamped it is in use |
| ServerRuns.PoolPartition | net/ngx_c_socket_conn.cpp:71-200 | each connection is in exactly one place without duplicates, and all counters are exact |
| ServerRuns.PoolBounded | net/ngx_c_socket_accept.cpp:96-112 | the pool never exceeds five times the limit plus one, or the number of ports |
| ServerRuns.OpenWhileInUse | net/ngx_c_socket.cpp:443-448 | a connection has an open socket exactly while it is in use |
| ServerRuns.NothingExcluded | net/ngx_c_socket_request.cpp:45-414 | in reachable states the side conditions of the steps hold: whatever the kernel does to a client in use is a step |
| ServerRuns.PacketIntegrity | net/ngx_c_socket.cpp:787-907 | what the kernel got for a connection in use is the declared bytes of whole packets and a prefix of those of the one in flight; counter, pointer and EPOLLOUT agree |
| ServerRuns.SentAtMostOnce | net/ngx_c_socket.cpp:787-907 | every queued message is still queued or was picked, once |
| ServerRuns.NothingElseSent | net/ngx_c_socket_request.cpp:362-414 | even for a closed connection the kernel got nothing but bytes of messages stamped by that incarnation |
| ServerRuns.SendAccounting | net/ngx_c_socket.cpp:398-420 | queue and pending counts are exact and bounded by 50001 and 401 |
| ServerRuns.NothingStranded | net/ngx_c_socket.cpp:758-911 | when the send thread sleeps, every queued message is stale or waits for a write event |
| ServerRuns.TimersMatchClients | net/ngx_c_socket_time.cpp:23-151 | exactly the clients in use have an entry, one each; size, online count and earliest key are right |
| Cadence.SilentClientsAreClosed | net/ngx_c_socket_time.cpp:192-241 | after the checks of a pass every open client was accepted, or had a ping handled, less than 4w + 11 seconds before it |
| Cadence.NeverSilentTooLong | net/ngx_c_socket_time.cpp:192-241 | in every state of every run with a finished pass in every second, each client in use was accepted, or had a ping handled, within 4w + 11 seconds |
| Cadence.NoEarlyKick | logic/ngx_c_slogic.cpp:193-214 | the timer thread leaves alone every client that was accepted, or had a ping handled, within 3w + 10 seconds |
| Histories.LastPingIsLastHeard | logic/ngx_c_slogic.cpp:362-380 | in every reachable state the last ping of a client is the moment it was accepted or a worker last handled a ping of it |
| Histories.PacketsReachWorkers | net/ngx_c_socket_request.cpp:210-313 | in every reachable state the packets in what a client sent since it was accepted were handed to the workers once each, in order, stamped for it, and the receive fields hold the rest |
| Histories.RecycledAfterWait | net/ngx_c_socket_conn.cpp:170-258 | in every reachable state a connection that can be freed was closed at least the configured wait ago |
| Histories.PacketsAppend | net/ngx_c_socket_request.cpp:210-313 | parsing can be interrupted anywhere and resumed with the residue |
| ServerRuns.BlocksOwnedOnce | net/ngx_c_socket_conn.cpp:53-68 | every block has one owner or was freed, exactly once |
| ServerRuns.ReceiveBlockWhileInBody | net/ngx_c_socket_request.cpp:247-313 | a connection has a receive block exactly while it receives a body |
| ServerRuns.PassIsRun | net/ngx_c_socket.cpp:787-909 | the loop over the send queue is a run of single turns |
| ServerRuns.SweepIsRun | net/ngx_c_socket_conn.cpp:229-258 | a pass of the recycle thread is a run of single freeings, each after the full wait, whenever no worker still handles a message of a connection it frees |
| SendPass.PassCleansQueue | net/ngx_c_socket.cpp:758-911 | once the send thread is woken and has walked the queue, the stale messages and no others are gone unsent, their blocks freed; those left are in order and belong to connections that are sending; all others went to their connections in order |
| SendPass.StaleIsDropped | net/ngx_c_socket.cpp:796-807 | a pass drops exactly the messages that are stale when it begins |
| SendPass.PassKeepsPassed | net/ngx_c_socket.cpp:809-814 | the messages it passes over stay, in order, and their connections are still sending at its end |
| SendPass.PassFreesDropped | net/ngx_c_socket.cpp:801-805 | the block of every dropped message is freed |
| SendPass.PassStartsStarted | net/ngx_c_socket.cpp:816-822 | every other message is given to its connection, in order |
| Decisions.StartListens | net/ngx_c_socket.cpp:550-588 | the server starts with one listening connection for each port and all others free |
| Decisions.AcceptDecides | net/ngx_c_socket_accept.cpp:96-170 | a connection request makes a client exactly when the clients and the pool leave room and the socket gets into epoll, with fresh fields and a timer entry `wait` seconds ahead |
| Decisions.ReadDecides | net/ngx_c_socket_request.cpp:163-168 | received bytes close the client exactly when they complete a packet judged a flood, and then nothing is queued |
| Decisions.FailuresClose | net/ngx_c_socket_request.cpp:178-200 | the end of a stream, a failed write and an error bit close the connection |
| Decisions.CheckDecides | logic/ngx_c_slogic.cpp:156-176 | a message passes the guard exactly when it is valid and the incarnation that sent it is in use |
| Decisions.MsgSendDecides | net/ngx_c_socket.cpp:391-432 | a reply goes behind the queue and wakes the send thread, unless more than 50000 messages are queued or, when more than 400 wait for this client, the client is closed |
| Decisions.PickDecides | net/ngx_c_socket.cpp:816-907 | starting a message gives the kernel its first bytes, and keeps or frees the block by whether anything is left to send |
| Decisions.WriteDecides | net/ngx_c_socket_request.cpp:366-410 | a write event gives the kernel the next bytes; with the last ones the block is freed and the send thread woken |
| Decisions.MonitorDecides | net/ngx_c_socket_time.cpp:192-218 | a pass of the timer thread does nothing unless the earliest entry is overdue; then it takes exactly the expired entries, in order, and puts their headers back `wait` seconds from now unless clients are kicked at once |
| Decisions.PingCheckDecides | logic/ngx_c_slogic.cpp:186-222 | the check of an expired header closes its client exactly when it is still there and every expired client is kicked or it was silent for more than 3w + 10 seconds; the header is freed |
| Decisions.StepsAreOffered | net/ngx_c_socket.cpp:707-735 | the kernel can report the end of any client, and the timer thread is never stuck |
| Decisions.SendThreadGoesOn | net/ngx_c_socket.cpp:758-911 | the send thread goes on whenever the semaphore lets it, and then to the end of the queue |
| Decisions.WorkersCanGoOn | logic/ngx_c_slogic.cpp:110-183 | a worker can check what it holds, and answer what passed the check once the queue is free |
| SendOrder.PickInOrder | net/ngx_c_socket.cpp:809-822 | picking keeps the order of a connection exactly when no message of it is in front |
| SendOrder.StepKeepsOrder | net/ngx_c_socket.cpp:787-907 | any step keeps it exactly when it does not pick out of turn |
| SendOrder.OrderIffInTurn | net/ngx_c_socket.cpp:787-907 | and so does a whole run |
| SendOrder.PacketsStartInOrder | net/ngx_c_socket.cpp:418-907 | without write events finishing inside a pass, packets of one incarnation start in the order of msgSend |
| SendRaces.PacketsCanOvertake | net/ngx_c_socket.cpp:809-814 | a run from the start of the server in which a later packet overtakes |
| SendFailures.WriteEventKeepsSendOk | net/ngx_c_socket_request.cpp:366-410 | the write handler keeps the send fields consistent exactly when its send does not fail for good |
| SendFailures.ErrorBitsBreakSendOk | net/ngx_c_socket.cpp:725-729 | the error-bit branch never leaves them consistent: only the counter drops |
| SendFailures.ErrorBitsLoseBlock | net/ngx_c_socket.cpp:725-729 | a run in which the next pass then overwrites the send pointer, leaks the block and garbles the stream |
| SendFailures.FailedWriteGarbles | net/ngx_c_socket_request.cpp:400-410 | a run in which half a packet is followed by another after a failed write |
| SendRaces.ReleaseStrands | net/ngx_c_socket_request.cpp:402-410 | the half after the semaphore strands a message exactly when nothing is left to wake the send thread and it passed one over |
| SendRaces.SplitHandlerStrands | net/ngx_c_socket_request.cpp:402-410 | a run in which that happens |
| SendRaces.HalvesMakeWhole | net/ngx_c_socket_request.cpp:384-410 | the two halves are the handler |
| Socket.Connection.GetOneToUse | net/ngx_c_socket_conn.cpp:33-51 | the fields are reset for a new incarnation |
| Socket.Connection.PutOneToFree | net/ngx_c_socket_conn.cpp:53-68 | both blocks are freed and the sequence number bumped |
| Socket.Connection.StartPacket | net/ngx_c_socket.cpp:816-906 | the five outcomes of the first send |
| Socket.CSocekt.constructor | net/ngx_c_socket_conn.cpp:71-90 | the pool starts with the configured number of free connections |
| Socket.CSocekt.NgxGetConnection | net/ngx_c_socket_conn.cpp:116-149 | the first free connection, or a new one |
| Socket.CSocekt.NgxFreeConnection | net/ngx_c_socket_conn.cpp:152-166 | the connection goes to the end of the free list |
| Socket.CSocekt.InRecyConnectQueue | net/ngx_c_socket_conn.cpp:170-200 | the scan finds a connection already queued; otherwise it is stamped and appended |
| Socket.CSocekt.ServerRecyConnectionPass | net/ngx_c_socket_conn.cpp:229-258 | the scan that restarts after each freed connection |
| Socket.CSocekt.ZdClosesocketProc | net/ngx_c_socket.cpp:434-459 | timers, socket, counter and recycle list in turn |
| Socket.CSocekt.MsgSend | net/ngx_c_socket.cpp:391-432 | the three branches on the limits |
| Socket.CSocekt.ServerSendQueuePass | net/ngx_c_socket.cpp:784-909 | the loop that drops, skips and sends while it erases from the list it walks |
| Socket.CSocekt.NgxWriteRequestHandler | net/ngx_c_socket_request.cpp:362-414 | the write handler for every result of send |
| Socket.CSocekt.NgxEventAccept | net/ngx_c_socket_accept.cpp:96-170 | limits, connection, registration or its failure, timer, online count |
| Socket.CSocekt.ProcPingTimeOutChecking | logic/ngx_c_slogic.cpp:186-222 | the guard, the two reasons to kick, and the release of the header |
| Socket.CSocekt.ServerTimerQueuePass | net/ngx_c_socket_time.cpp:194-218 | the timer thread's pass up to the release of the mutex |

## Left out

- Replies whose length field exceeds their buffer: no send helper builds one, and sending it would read behind the buffer.
- System calls, signals, sockets and threads as such: their results are parameters, their scheduling is the choice of steps. Registering with epoll may fail when a client is accepted; otherwise epoll, mutex and semaphore calls succeed.
- Logging and the ten-second statistics: no effect on the modelled state.
- The canned packet and hex dump at the start of the read handler: debug injection that overwrites the buffer before every receive.
- The flood counters: the verdict of TestFlood is an input of the receiving steps.
- The handlers for books, registration and login, and the table that dispatches to them: a handled message is a ping, or any message with at most one reply.
- Shutdown: stopping the pool, the forced release of connections, clearing lists and timers.
- Configuration, process titles, daemonising, signals and memory allocation failure.
- Wrap-around of the sequence number: it is a natural number.
- A handler that outlives the recycle delay: freeing a connection waits for workers that passed the check, as the delay is meant to guarantee.
- Events on a connection that was freed: the epoll steps are those of connections in use or being recycled.
- A hard send failure or error bit that is followed by anything but the closing of that connection: in the state machine the two are one step. SendFailures shows what the send fields are in between, and runs in which another step comes first.
- The moment between the timer thread's look at size and earliest key and its taking of the mutex: both are one step.
- Floating-point rounding in %f: arithmetic is over the reals. The least 64-bit integer and formats that end inside a directive are outside the well-formed arguments.
- The read handler and the worker loop as methods of the socket object: they are objects of their own (Framing.Receiver, ThreadPool.CThreadPool), and in ServerState steps on values.
- Ownership.CloseKeepsOwned: counts pointers to blocks, not the contents of the allocator.
- Socket.CSocekt.ServerSendQueuePass: the results of send are given as a list, one for each message of the pass.
