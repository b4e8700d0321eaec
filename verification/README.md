# Verification model of libesf's IPC and log transport

libesf gives processes a named IPC endpoint, asynchronous actions on top of it,
and a log service with a reconnecting client. This project models that code in
Dafny and proves what it promises.

**The shared-memory channel.** An `Endpoint` is two one-way `SharedBuffer`s, each
guarded by three semaphores. `Channel.dfy` is one buffer as an interleaving step
system: any number of threads inside `send`, one receive thread, the destructor,
and a later endpoint opened on the same memory; one step is one semaphore
operation, one buffer access or one check. Proved over every run: conservation of
the semaphore tokens and mutual exclusion; at most one throw out of `send`, after
which the buffer is frozen (`Channel.dfy`); refinement of a FIFO of capacity one
and program order of each sender (`ChannelFifo.dfy`); absence of deadlock,
termination and the exact cause of a throw (`ChannelLiveness.dfy`); what the
destructor can rely on (`ChannelShutdown.dfy`) and exactly when it can hang
(`ChannelHang.dfy`); and what it leaves behind for the next endpoint
(`ChannelReopen.dfy`). `SharedBuffer.dfy` is the object updated in place, `Wire.dfy`
its char array and `strcpy`.

**The request/response protocol.** `Rpc.dfy` is `async`, `registerAction` and
`M_responseHandler` over both buffers: client threads that hold `m_mutex` across a
blocking send, a server receiver that spawns one worker per request, and a client
receiver that takes `m_mutex` inside its critical section. Calls may be of any
number of actions, each with its own mutex, registered by the server or not.
`RpcInvariant.dfy` keeps tokens and mutex ownership, `RpcIds.dfy` the place of every
outstanding id, `RpcCompletion.dfy` exactly-once completion, `RpcProgress.dfy`
deadlock freedom, termination and the outcome of every complete run, and
`RpcThrow.dfy` what a request that does not fit does to all the other calls.
`RpcChannel.dfy` shows that each of the two buffers is a channel of `Channel.dfy`.
`ActionObject.dfy` is the object form, `Responses.dfy` the `ResponseData` encoding.

**The log transport.** `LogClient.dfy` is the outgoing queue with reconnection,
`LogDrops.dfy` what a drop during a write does to it,
`Header.dfy` the eight-digit length header, `Session.dfy` the incremental frame
reader, `LogTransport.dfy` their composition over successive connections with all their
sessions, and `LogOrder.dfy` and `LogSwap.dfy` what the server is notified of in the end
and in which order.

**Codecs and tables.** `Hex.dfy` and `TimePoint.dfy` (time points as hex text),
`TraceFormat.dfy` (the trace indentation loop), `Template.dfy` and `LogMessage.dfy`
(log messages as JSON trees), `MessageFactory.dfy` (type registry and typed
dispatch), `Subscribers.dfy` (log server and subscribers) and `SubscriberRuns.dfy`
(any interleaving of their calls). `Sums.dfy`, `SendProtocol.dfy` and `Wrappers.dfy`
are shared.

Where threads interleave, code is a step function on a state value, a class performs
the same steps in place and is proved equal to it, and the theorems are about runs of
the step function; the methods of these classes also promise what the theorems say about
their own step. `Inv(s)` in a contract holds in every reachable state
(`Channel.RunKeepsInv`, `RpcCompletion.RunKeepsInv`).

Facts of the code the proofs bring out:

- A throw inside `send` keeps two tokens for ever, so the first one ends all traffic on
  that buffer, and a destructor called after it never returns. Senders can make the
  destructor hang exactly if one of their packets does not fit; if all fit, it returns
  under every schedule.
- One oversized request ends a whole endpoint's protocol: no later request of any action
  arrives, and every thread that calls `async` afterwards waits in `send` with its
  action's mutex for ever. The reply to a call that the server had already accepted then
  waits for that mutex, and with it the client's receiver and all later replies.
- A receiver stopped by the destructor gives back a slot token that was never taken from
  a sender. From then on a sender can overwrite an unread message, and a later read finds
  a text already read. A message pending at a replacement can be lost in this way, and its
  successor read twice: it is if the sender copies before the next receiver reads, and is
  not if the receiver reads first. Once everything is at rest there were as many repeats
  as losses.
- A completed write says nothing about what the server has read: a log message is lost
  without an error if its session ends before it has read it. An old session may also
  read on after the next one has begun: nothing is repeated, but the order of sending
  survives exactly if no session notifies after a later one.
- A drop during a write makes two handlers start a connection attempt each. If both
  succeed, a frame is written twice, and its second completion pops another frame while
  that is still being written, or calls `pop_front` on the empty queue. A frame popped in
  that way is lost if its own write then fails.
- A type registered again under a second identifier no longer reaches its slot.
- `inc/lesf/ipc/endpoint.h:34` promises a single client, but the check is commented out
  (`src/ipc/endpoint.cpp:114-122`); and `inc/lesf/ipc/endpoint.h:53-54` says the server's
  destructor waits for the client, which the code does not do. The model follows the code,
  with one client.

## Model

| member | source | states |
|---|---|---|
| Wire.TransferExact | src/ipc/endpoint.cpp:174-177 | whatever stale bytes the buffer holds, reading it back to the first NUL gives the text up to its own first NUL, which is the whole text exactly when it has none |
| Wire.Strcpy | src/ipc/endpoint.cpp:177 | in place, the array becomes the text up to its first NUL, a terminator, and, byte by byte, what it held after that |
| Wire.Store | src/ipc/endpoint.cpp:174-177 | throws exactly when text and terminator exceed the array, leaving every byte as it was; otherwise the array reads back as the text |
| Wire.Load | src/ipc/endpoint.cpp:224 | reading a terminated array stays in bounds and yields the bytes before the first NUL |
| Channel.InitInv | src/ipc/endpoint.cpp:38-43 | the constructor's counts 1, 1, 0 and a cleared flag satisfy the whole invariant for any number of sending threads |
| Channel.StartsAsConstructed | src/ipc/endpoint.cpp:38-50 | a new buffer has mutex 1, sem_empty 1, sem_full 0, a cleared flag and 4096 NUL characters |
| Channel.StepKeepsInv | src/ipc/endpoint.cpp:134-139 | every atomic step of sender, receiver, destructor, reopening or a new thread keeps tokens, locks, termination of the buffer text and the shutdown bookkeeping |
| Channel.ThrowsExactly | src/ipc/endpoint.cpp:174-176 | in every state with the invariant a step throws if and only if it is that of a sender in the lock whose message cannot be serialized or whose size plus one exceeds the size of the buffer |
| Channel.TokensConserved | src/ipc/endpoint.cpp:170-183 | over every run, sem_empty + sem_full + senders and receiver in flight + throws = 1 + destructor posts, mutex + lock holders + throws = 1, and at most one send ever throws |
| Channel.MutualExclusion | src/ipc/endpoint.cpp:171-182 | while one sender is in the critical section no other sender and no receiver is, and nothing has thrown |
| Channel.FrozenAfterThrow | src/ipc/endpoint.cpp:175-176 | after a throw, buffer, written history and delivered history never change again in any continuation |
| ChannelFifo.ChannelIsFifo | src/ipc/endpoint.cpp:199-240 | until a destructor begins, the written texts are the delivered ones followed by at most one pending text: nothing lost, overwritten or repeated |
| ChannelFifo.StepRefinesFifo | src/ipc/endpoint.cpp:169-183 | each step of any thread is a stutter, the put of exactly the text being sent into an empty queue, or the take of its head |
| ChannelFifo.ProgramOrder | src/ipc/endpoint.cpp:167-184 | over every run at all, what a thread has copied in is exactly the fitting messages of the executed part of its program, in order |
| ChannelFifo.DeliveredInProgramOrder | src/ipc/endpoint.cpp:196-241 | the deliveries of one thread's messages are a prefix of its program |
| ChannelLiveness.StepDropsMeasure | src/ipc/endpoint.cpp:201-240 | without shutdown every step of every thread brings the end nearer, by exactly one unless it is a throw |
| ChannelLiveness.NeverStuck | src/ipc/endpoint.cpp:170-171 | as long as anything is unsent or undelivered and nothing has thrown, whatever the programs contain, some thread can step: no deadlock, since both sides wait for their slot before the mutex |
| ChannelLiveness.CompleteRunThrowsExactlyWhenUnfit | src/ipc/endpoint.cpp:167-184 | for all programs every run has at most 11 steps per message, and a run nobody can extend has ended in a throw if and only if some packet of some program does not fit |
| ChannelLiveness.EveryRunDelivers | src/ipc/endpoint.cpp:167-242 | with messages that fit, a run of k sends has 11k steps exactly when nobody can step, never more, and then every message of every thread was delivered in order, once |
| ChannelLiveness.ThrowStopsTheOthers | src/ipc/endpoint.cpp:175-176 | a run in which one thread throws and the message of another thread can never be sent |
| ChannelShutdown.ReceiverWindsDown | src/ipc/endpoint.cpp:196-241 | once the destructor has posted, each receiver step takes it one step nearer its exit, at most eight in all, and it delivers at most the one message it was handling |
| ChannelShutdown.ShutdownNotStuck | src/ipc/endpoint.cpp:205-208 | with no throw, until the receiver has left its loop some thread can step |
| ChannelShutdown.JoinReturns | src/ipc/endpoint.cpp:134-137 | from every state after the post, under every schedule of the senders, the run is bounded by the number of destructor posts, and when nobody can step and nothing threw the receiver has exited and join can return |
| ChannelHang.MayHangExactlyWhenUnfit | src/ipc/endpoint.cpp:134-137 | at any moment before the destructor is called, after any run with throws, other destructors and reopenings, the threads there are can make join wait for ever if and only if some packet of some thread, sent or still to be sent, does not fit |
| ChannelHang.HangExactlyWhenUnfit | src/ipc/endpoint.cpp:172-176 | programs of senders can make the destructor hang if and only if some packet of some program does not fit |
| ChannelHang.FittingAlwaysJoins | src/ipc/endpoint.cpp:132-139 | if all packets fit, those of threads that join later included, then after every post join can return, and in every continuation nobody can extend the receiver has exited |
| ChannelHang.ThrowBeforeDestructorHangs | src/ipc/endpoint.cpp:175-176 | once send has thrown, a destructor that had not begun never gets past join, whatever any thread does |
| ChannelShutdown.ThrowMakesJoinHang | src/ipc/endpoint.cpp:134-137 | a run in which send throws, the destructor posts, and in no continuation can join return |
| ChannelReopen.DeliveriesNeverExceedWrites | src/ipc/endpoint.cpp:199-240 | over every run, with any number of destructors, reopenings and throws, there are never more deliveries than writes and each delivery is of the latest text copied in |
| ChannelReopen.LossesMatchRepeats | src/ipc/endpoint.cpp:199-240 | over every run, writes plus repeated reads equal reads plus overwritten texts plus the unread one; once everything is at rest exactly as many texts were read again as were overwritten unread |
| ChannelReopen.QuietLosesNothing | src/ipc/endpoint.cpp:169-183 | before any destructor begins no text is overwritten unread and none is read twice |
| ChannelReopen.ReplacingLosesAndDuplicates | src/ipc/endpoint.cpp:134-139 | a run in which replacing the receiving endpoint loses a pending message and delivers the next one twice |
| ChannelReopen.ReplacingCanBeHarmless | src/ipc/endpoint.cpp:134-139 | the same replacement delivers both messages once when the next receiver reads before the sender copies |
| ChannelReopen.OverwriteExactlyAfterDestructor | src/ipc/endpoint.cpp:238-240 | from every reachable state with no thread inside send and the receiver waiting, whatever is pending, an unread message can be overwritten if and only if an endpoint on this buffer was destroyed before and no send has thrown |
| ChannelReopen.TwoPendingExactlyAfterDestructor | src/ipc/endpoint.cpp:238-240 | from the same states without a throw, two more messages can be written than delivered if and only if an endpoint was destroyed before |
| SharedBufferObject.SharedBuffer.constructor | src/ipc/endpoint.cpp:38-51 | a new buffer object is the initial state of the step system, with an array of 4096 NUL characters |
| SharedBufferObject.SharedBuffer.Send | src/ipc/endpoint.cpp:167-184 | the next atomic action of a thread inside send, in place, is the step of the model; in the lock it throws if and only if the message has no text or size plus one exceeds the array, leaving every byte as it was, and otherwise the array reads back as the message |
| SharedBufferObject.SharedBuffer.Receive | src/ipc/endpoint.cpp:194-242 | the next atomic action of the receive thread is the step of the model, and what it reads is the C string in the array |
| SharedBufferObject.SharedBuffer.Destroy | src/ipc/endpoint.cpp:132-139 | the next action of the destructor is the step of the model |
| Responses.AnswerRoundTrip | inc/lesf/ipc/user_actions.h:317-321 | the client sees what the server's handler returned if and only if it is not an error left unset; such an error arrives as an empty response |
| Responses.FieldsAsConstructed | inc/lesf/ipc/user_actions.h:138-143 | what the constructors of Error and ResponseData put into every field, with the default code -1 |
| RpcInvariant.StepKeepsTokens | src/ipc/endpoint.cpp:167-242 | every step of clients, server, workers and client receiver, throws out of async included, keeps the token equations of both buffers and ties the unread message to them |
| RpcInvariant.StepKeepsOwnership | inc/lesf/ipc/user_actions.h:217 | a thread is inside async or M_responseHandler of an action exactly when it owns that action's mutex, after every step |
| RpcIds.RunningIdIsAlone | inc/lesf/ipc/action_server.h:126-134 | the id a running worker answers is with no client, not in the request buffer and with no other worker |
| RpcIds.StepKeepsIds | inc/lesf/ipc/user_actions.h:231-232 | after every step each outstanding id, those of throws out of async included, is in exactly one place, every request and reply on its way matches what was issued and answered, and BadActionId was not thrown |
| RpcIds.BadIdsAreCounted | inc/lesf/ipc/user_actions.h:309-315 | M_responseHandler throws BadActionId exactly on an id that is not among its action's active handlers, and otherwise goes on to call the handler |
| RpcCompletion.StepKeepsInv | inc/lesf/ipc/user_actions.h:305-324 | the whole invariant of the protocol survives every step, throws out of async included |
| RpcCompletion.CorrelatedExactlyOnce | inc/lesf/ipc/user_actions.h:309-323 | in every reachable state every id is in one place if outstanding and in none otherwise, BadActionId was never thrown, no handler ran twice, and each was given the encoded answer of its own id, equal to it unless an unset error |
| RpcCompletion.HandlerRunsOnIssuedRequest | inc/lesf/ipc/action_server.h:126-128 | the server's handler runs on the very request issued under its id, of a registered action, and at most once for it |
| RpcProgress.RunDropsMeasure | inc/lesf/ipc/user_actions.h:215-235 | every step of every thread strictly lowers the work left, so runs are bounded |
| RpcProgress.OwnerProgress | inc/lesf/ipc/user_actions.h:217-232 | as long as nothing has thrown, whoever holds an action's mutex, even across a blocking send, some thread can step |
| RpcProgress.NeverStuck | inc/lesf/ipc/action_server.h:124-135 | as long as nothing has thrown and any call is unfinished some thread can step: no deadlock |
| RpcProgress.CompleteRunThrowsExactlyWhenUnfit | inc/lesf/ipc/user_actions.h:215-235 | for all programs of calls a run has at most 29 steps per call, and a run nobody can extend has seen async throw if and only if the request of some call does not fit |
| RpcProgress.EveryRunCompletes | inc/lesf/ipc/user_actions.h:215-235 | if all requests fit: at most 29 steps per call; in a run nobody can extend every call got an id, the handler of each call of a registered action ran exactly once, and active_handlers holds exactly the calls of the other actions |
| RpcThrow.NothingReachesTheServer | src/ipc/endpoint.cpp:175-176 | after a throw out of async no further request of any action reaches the server in any continuation: only requests it had taken before are ever answered |
| RpcThrow.AcceptedAnsweredExactly | inc/lesf/ipc/user_actions.h:305-324 | when nobody can step any more after a throw, the handler of every call the server accepted has run once if and only if the client's receiver is not waiting for an action's mutex |
| RpcThrow.MayStarveExactlyWhenThreatened | inc/lesf/ipc/user_actions.h:215-235 | at any moment after a throw, a call the server has accepted can be left unanswered for ever if and only if its reply has yet to get its action's mutex and some thread is in async of that action or calls it next: that thread waits in send with the mutex |
| RpcThrow.OversizedStarvesAnotherAction | inc/lesf/ipc/user_actions.h:215-235 | a run in which an oversized request of one action lets a call of another action, which the server had accepted, go unanswered for ever |
| RpcChannel.StepSimulated | src/ipc/endpoint.cpp:167-242 | whatever a port of the protocol does, a throw included, is at most two steps of the byte-level channel without shutdown, or none, copying in and delivering the text of the same message |
| RpcChannel.RequestsSimulated | inc/lesf/ipc/user_actions.h:232 | every run of the protocol is on its request buffer a run of the channel, with the same counts, threads and texts, for any serialization in which the requests copied in fit |
| RpcChannel.RepliesSimulated | inc/lesf/ipc/action_server.h:131-133 | every run of the protocol is on its response buffer a run of the channel, with the receive thread in its critical section from taking the message to the end of the user's handler |
| RpcChannel.RequestsAreFifo | src/ipc/endpoint.cpp:199-240 | in every run requests reach the server in the order in which they were copied in, each once and unchanged, with at most one on its way |
| RpcChannel.RepliesAreFifo | src/ipc/endpoint.cpp:199-240 | in every run replies reach the client in the order in which they were copied in, each once and unchanged, with at most one on its way |
| ActionObject.ActionEndpoints.constructor | inc/lesf/ipc/user_actions.h:190-201 | a new object satisfies the whole invariant of the protocol for any programs and any registered actions |
| ActionObject.ActionEndpoints.Async | inc/lesf/ipc/user_actions.h:215-235 | every action of a thread in async keeps the whole protocol invariant, takes no other handler out of active_handlers, and the ids the thread was given are those of its own calls |
| ActionObject.ActionEndpoints.ReceiveRequest | inc/lesf/ipc/action_server.h:120-136 | every action of the server's receive thread keeps the invariant; it starts at most one worker, and only for a request that was issued, is registered with its handler and has no answer yet |
| ActionObject.ActionEndpoints.Work | inc/lesf/ipc/action_server.h:126-134 | every action of a worker keeps the invariant, and the server's handler is called for an issued request that had no answer, whose only answer it becomes |
| ActionObject.ActionEndpoints.ReceiveResponse | inc/lesf/ipc/user_actions.h:305-324 | every action of the client's receive thread keeps the invariant and never throws BadActionId; a handler it calls was not called before and is given the encoded answer of its own id |
| LogClient.StepKeepsInvExactlyWhenIdle | src/log/client.cpp:138-199 | a handler keeps the queue invariant if and only if it is not the loss of the connection during a write |
| LogClient.QueueSurvivesReconnects | src/log/client.cpp:97-136 | over every run with drops only while idle: connected means one monitor, no connection attempt, a write of the queue front exactly when the queue is not empty; disconnected means one attempt and no write; completed writes followed by the queue are the messages queued. The first drop during a write breaks it |
| LogDrops.QueueIsTheRest | src/log/client.cpp:176-199 | over every run at all, drops during a write and a pop of the empty queue included, what is queued is what was queued without as many frames as writes completed |
| LogDrops.WritesInOrderExactly | src/log/client.cpp:176-199 | over every run at all, the completed writes are the first frames queued, in order, and with the queue make up all that was queued, if and only if each pop was of the frame whose write completed |
| LogDrops.NowhereExactlyWhenLost | src/log/client.cpp:178-197 | over every run at all, a frame is neither queued nor written nor being written if and only if its last write failed after it had been popped, or the write of another frame popped it while no write of it was under way |
| LogDrops.IdleDropsLoseNothing | src/log/client.cpp:176-199 | with drops only while idle every popped frame was written exactly once in order, none is lost, and pop_front always has a frame to pop |
| LogDrops.EachFailedWriteAddsALoop | src/log/client.cpp:150-156 | over every run the monitors and connection attempts under way are one more than the writes that failed: a failed write adds a connection loop for ever |
| LogDrops.PopsEmptyExactlyWhenUntidy | src/log/client.cpp:176-199 | from every reachable state, even if no connection is lost during a write any more, pop_front can be called on the empty queue if and only if the client is not tidy: connected with one monitor and the write of the front, or disconnected with one attempt and no write |
| LogDrops.EmptyQueueIsPopped | src/log/client.cpp:181-184 | for any frame, a run of handler events with one drop during its write, after which both connection attempts succeed, that writes it twice and pops the empty queue |
| LogDrops.DropDuringWriteRepeats | src/log/client.cpp:138-199 | for any two frames, such a run in which the first is written twice, and its second write has popped the other while that is still being written |
| LogDrops.SecondDropLoses | src/log/client.cpp:190-197 | continued by a failed write, the second frame is nowhere: not queued, not being written, never written |
| LogDrops.StaleWriteLoses | src/log/client.cpp:150-156 | for any two frames, a run of handler events without a failed write that ends tidy, with the first frame written twice and the second one never |
| LogClient.Client.OnQueueMessage | src/log/client.cpp:160-174 | the posted handler keeps the queue invariant in every state that has it |
| LogClient.Client.OnConnectDone | src/log/client.cpp:112-135 | the connect handler keeps the queue invariant, whether the attempt succeeded or not, and neither completes nor drops a frame |
| LogClient.Client.OnReadDone | src/log/client.cpp:140-158 | from the queue invariant, the monitor handler keeps it if and only if it reports no error or no write is under way |
| LogClient.Client.OnWriteDone | src/log/client.cpp:176-199 | from the queue invariant, the write handler keeps it if and only if the write succeeded, and the completed writes are then the first frames queued, one more than before |
| Header.HeaderFits | src/log/client.cpp:75-76 | the printed header is 8 characters, and fits its 9-byte array with the terminator, if and only if the size is below 10^8 |
| Header.HeaderDigits | src/log/client.cpp:75-76 | the header is eight decimal digits whose value, the first one counting 10^7, is the size |
| Header.HeaderRoundTrip | src/log/session.cpp:84 | atoi reads back every printed size |
| Header.AtoiReads | src/log/session.cpp:84 | atoi skips white space, takes one sign and reads digits up to the first other character; without digits it gives 0 |
| Header.HeaderInIntRange | src/log/session.cpp:84 | whatever 8 bytes arrive, atoi stays within int |
| Session.FramingRoundTrip | src/log/session.cpp:76-111 | for every list of messages below 10^8 bytes and every split of their frames into chunks, a fresh session notifies exactly that list and is ready for the next header |
| Session.AnyHeader | src/log/session.cpp:82-111 | whatever eight bytes arrive: zero notifies an empty message at once, a positive size waits for exactly that many bytes and notifies them, a negative one ends the session for good |
| Session.PrefixNotifiesWholeFrames | src/log/session.cpp:76-111 | after any prefix of the stream exactly the messages wholly contained in it have been notified |
| Session.WholeFramesExact | src/log/client.cpp:72-81 | the number of whole frames in n bytes is the largest k whose first k frames take at most n bytes |
| Session.ChunksDoNotMatter | src/log/session.cpp:79-80 | feeding a stream in chunks equals feeding it at once |
| Session.Reader.Receive | src/log/session.cpp:76-111 | one more byte over the header array and the message array is the step of the model, and returns exactly the message to notify |
| Session.Reader.HeaderDone | src/log/session.cpp:82-87 | a full header starts a body of the parsed size, completes an empty message at once, or stops on a negative size |
| LogTransport.StepKeepsInv | src/log/client.cpp:160-199 | every call of send, handler, delivery to any session and end of a session keeps the connections a partition of the messages in order and each session at what its received bytes make of it |
| LogTransport.SessionNotifies | src/log/session.cpp:76-111 | each session, also one whose connection the client has lost and replaced, notifies exactly those messages of its connection whose frames it received in full, in order, and all of them if and only if it read all that was written |
| LogTransport.ClosedStaysSilent | src/log/session.cpp:76-111 | a session that has ended notifies nothing in any continuation |
| LogOrder.NotifiedOnceEach | src/log/session.cpp:70-111 | over any sequence of connections, lost at any idle moment, with any number of sessions reading at once: each notification is of a message that was sent, and no message is notified twice |
| LogOrder.InOrderExactlyWhenOnTime | src/log/session.cpp:94-111 | the notifications come in the order of sending if and only if no session notifies after a later one has |
| LogSwap.MayBreakExactlyWhenUnsettled | src/log/session.cpp:94-111 | from every reachable state, without a further lost connection, the order of notifications is or can still be broken if and only if it is already, or an open session has something unread while a later one has notified, has something unread or is being written to, or while the client is about to connect again |
| LogOrder.GaplessExactlyInTurn | src/log/session.cpp:94-111 | the k-th notification is of the k-th message sent, for all k, if and only if no session notified anything while an earlier one had bytes to read |
| LogOrder.NoneMissingExactlyWhenRead | src/log/client.cpp:138-156 | of all messages whose write was started on any connection none is missing if and only if every session has read all that was written to it |
| LogOrder.NotifiedIsPrefixInTurn | src/log/session.cpp:70-111 | if each session waits its turn the notifications are a prefix of what was sent, and all of it once the queue is empty and everything has been read |
| LogOrder.LateSessionSwapsMessages | src/log/client.cpp:138-156 | for any two messages, a run in which an old session reads after the next one and the messages arrive swapped |
| LogOrder.UnreadMessageIsLost | src/log/client.cpp:138-156 | for any two messages, a run in which both are written and the session of the first ends before it has read; the first is missing in every continuation |
| Hex.DecodeEncode | src/log/message.cpp:121 | unhex of hex gives the bytes back |
| Hex.Alphabet | src/log/message.cpp:62 | the digits written are 0-9 and A-F in order; those and a-f are accepted, with their values, and nothing else |
| Hex.EncodeAt | src/log/message.cpp:62 | each byte is written as two digits, the high one first |
| Hex.DecodeErrors | src/log/formatter.cpp:106 | unhex accepts exactly the texts of an even number of such digits, and fails with one error on any other character and with the other on half a byte |
| Hex.DecodeAccepts | src/log/message.cpp:43 | unhex accepts exactly the even-length texts of hex digits |
| Hex.EncodeDecode | src/log/message.cpp:62 | hex of what unhex accepted is the text in upper case |
| Hex.EncodeArray | src/log/message.cpp:62 | the loop over the raw array prints its hex text |
| Hex.DecodeText | src/log/formatter.cpp:106 | the loop over the text appends its bytes, or fails at the first bad or missing digit |
| TimePoint.TimeRoundTrip | src/log/message.cpp:38-65 | every signed 64-bit count survives synthetize and extract, as 16 characters |
| TimePoint.TimeDigits | src/log/message.cpp:54-65 | the text of a count is its eight bytes in two's complement, the least significant one first, each as two digits with the high one first |
| TimePoint.ExtractAccepts | src/log/message.cpp:38-52 | extract accepts exactly the texts of 16 hex digits, and synthetizing what it read gives the upper-case text |
| TimePoint.ExtractErrors | src/log/message.cpp:38-52 | extract fails with the size error exactly on hex texts of whole bytes that are not eight, and otherwise with the error of unhex |
| TimePoint.SynthetizeRaw | src/log/message.cpp:54-65 | copying the count byte by byte into the raw array and printing it gives the encoding |
| TimePoint.ExtractRaw | src/log/message.cpp:38-52 | parsing, checking the size and rebuilding the count from its bytes is extract |
| TraceFormat.IndentTrace | src/log/formatter.cpp:105-118 | the find/replace loop ends, puts 8 spaces after every newline except a first or last character, drops the last character, and taking the spaces out gives the trace back without it |
| TraceFormat.IndentedAt | src/log/formatter.cpp:107-116 | the indented text is every character in order, with eight spaces after each line feed that is neither the first nor the last character |
| TraceFormat.IndentationReversible | src/log/formatter.cpp:115-118 | the printed block determines the decoded trace up to its last character |
| TraceFormat.PrintTrace | src/log/formatter.cpp:101-121 | the whole trace block: the note for none, the error of unhex, and for the hex text of any non-empty text its heading and the indented text without its last character |
| Template.ExtractExact | src/log/message.cpp:207-209 | extraction yields a template's values from exactly the objects that hold them, whatever other keys they have |
| Template.SynthetizedKeys | inc/lesf/ipc/message.h:88-95 | the object of a template has exactly the keys bound in it |
| Template.FieldTakes | src/log/message.cpp:38-52 | which nodes a member of each type is read from, what it becomes, and how each type fails |
| Template.TemplateRoundTrip | inc/lesf/ipc/message.h:75-95 | pulling what was pushed gives the members back, for every template with distinct keys |
| LogMessage.MessageRoundTrip | src/log/message.cpp:158-232 | synthetizing a serialized message gives it back, with or without exception info, through all nested templates |
| LogMessage.SerializedAs | src/log/message.cpp:158-290 | the serialized tree, key by key: every member of the message, the build info, the process info and the exception info under its own key, the flag beside the data, and nothing else |
| LogMessage.ParseExact | src/log/message.cpp:194-232 | a tree is read as a message if and only if it holds the members of that message, with the flag, and the data if the flag is set, whatever other keys it has |
| LogMessage.ObjectCovers | src/log/message.cpp:166-175 | the serialized object holds every bound member, also when only the flag is bound in the wrapper, and the data node when there is exception info |
| LogMessage.SynthetizeTotal | src/log/message.cpp:194-232 | whatever tree arrives a message comes out: the one the tree holds, or, if it holds none, one of type Unknown ending in the raw text |
| LogMessage.FallbackInFigures | src/log/message.cpp:227-231 | a tree that cannot be read becomes a message of type -2 with empty build and process info, the present time, no exception info, and a text naming the reason and quoting the raw data |
| LogMessage.ParseFails | src/log/message.cpp:204-224 | for which reason a tree cannot be read: no object, the first member that cannot be extracted, or announced exception info that is missing, no object, or cannot be extracted |
| LogMessage.SerializeMessage | src/log/message.cpp:158-192 | binding the members one by one and then the wrapper gives exactly that tree, which reads back as the message |
| LogMessage.SynthetizeMessage | src/log/message.cpp:194-232 | filling a blank message step by step gives the message the tree holds, in particular the serialized one; if it holds none, one of type Unknown with the present time, the reason and the raw data |
| MessageFactory.RegistrySound | inc/lesf/ipc/message_factory.h:46-73 | over every sequence of registrations, failed and repeated ones included, a type's identifier builds that type and a slot expects the type its identifier builds |
| MessageFactory.IdTakenByFirst | inc/lesf/ipc/message_factory.h:51-59 | over every sequence of registrations an identifier builds the type of the first registration under it |
| MessageFactory.TypeHasLatestId | inc/lesf/ipc/message_factory.h:56 | a type goes by the identifier of its latest successful registration, where those succeed that are the first under their identifier |
| MessageFactory.TypesStayRegistered | inc/lesf/ipc/message_factory.h:56 | a registered type stays registered whatever else is registered, under the same identifier unless it is registered again itself |
| MessageFactory.SlotsConnected | inc/lesf/ipc/endpoint.h:65-70 | an identifier has a slot if and only if one was registered for a type while it went by that identifier |
| MessageFactory.SlotsStayConnected | inc/lesf/ipc/endpoint.h:69 | a slot stays under its identifier and for its type whatever is registered later |
| MessageFactory.IdsAreForever | inc/lesf/ipc/message_factory.h:51-59 | an identifier, once taken, keeps its type whatever is registered later |
| MessageFactory.DistinctIds | inc/lesf/ipc/message_factory.h:56 | two types never have the same identifier |
| MessageFactory.ConstructSerialize | src/ipc/message_factory.cpp:76-98 | a message can be serialized exactly when its type is registered, and construct then gives it back with its type, identifier and members |
| MessageFactory.SerializedAs | src/ipc/message_factory.cpp:76-98 | the tree has the identifier under id, the members under their keys in payload, and nothing else |
| MessageFactory.ConstructExact | src/ipc/message_factory.cpp:29-74 | construct yields a message if and only if the tree has an identifier registered for its type and a payload with exactly its type's members, whatever else it has |
| MessageFactory.ConstructFails | src/ipc/message_factory.cpp:29-74 | and fails on malformed data, on an unknown identifier, or on a payload that holds no message of the type, in this order |
| MessageFactory.DispatchSound | src/ipc/endpoint.cpp:224-231 | the cast in a slot never fails on any data, and a registered message reaches a handler exactly when a slot is connected under its type's present identifier |
| MessageFactory.ConnectedSlotDelivers | inc/lesf/ipc/endpoint.h:65-70 | once a slot is registered for a registered type, its messages are serialized as before and reach the handler |
| MessageFactory.ConnectedSlotGoesOn | src/ipc/endpoint.cpp:224-231 | and go on reaching it, whatever is registered, until the type itself is registered again |
| MessageFactory.ReregisteringDisconnects | inc/lesf/ipc/message_factory.h:56-59 | registering a type under a further identifier sends its messages to an identifier without a slot |
| MessageFactory.Factory.RegisterMessageType | inc/lesf/ipc/message_factory.h:46-60 | throws exactly when the identifier is taken, leaving both maps unchanged; otherwise adds both entries and leaves those of all other types and identifiers and all slots as they were |
| MessageFactory.Factory.ConnectSlot | inc/lesf/ipc/endpoint.h:65-70 | throws exactly for an unregistered type; otherwise connects the slot under the type's identifier and leaves all other slots as they were |
| MessageFactory.Factory.ConstructMessage | src/ipc/message_factory.cpp:29-74 | the checks in order, the identifier returned with the message, or the error of the first check that fails |
| Subscribers.Subscribe | src/log/server.cpp:37-41 | a new subscriber points to its server, is in its set and has received nothing; live objects stay consistent |
| Subscribers.DestroySubscriber | src/log/server.cpp:43-47 | only live servers are touched, and the subscriber is in no set afterwards |
| Subscribers.DestroyServer | src/log/server.cpp:76-82 | exactly the server's subscribers are told, once each, and forget it; live objects stay consistent |
| Subscribers.Notify | src/log/server.cpp:108-114 | exactly the live subscribers pointing to the server get the message, once each |
| SubscriberRuns.Replay | src/log/server.cpp:37-114 | over any interleaving of creating and destroying servers and subscribers and of messages: pointers and sets of the live objects agree, and each live subscriber has received exactly the messages sent to its server while registered, once each and in order |
| SubscriberRuns.RegisteredIsLive | src/log/server.cpp:76-82 | whoever is registered is alive with a live server, and nobody is told of a deleted server twice |
| SubscriberRuns.SilenceAfterwards | src/log/server.cpp:43-47 | a subscriber without a server receives nothing in any continuation |

## Left out

- JSON text: printing and parsing (libconf) is not part of this model; messages are JSON trees, and the text of a packet is a given string or a serialization failure.
- Boost.Asio, sockets and shared-memory mapping: only handler events, byte streams and semaphore semantics are kept, with sequentially consistent shared variables.
- User handlers that throw, and handler exceptions other than RecoverableException, which terminate the process. User handlers that call async: on the same action they wait for a mutex their own thread holds; on another action the code allows it, but the model takes a handler as one step.
- Oversized responses, which end the server process, since they throw in a detached thread; and shutdown in the request/response protocol, which is covered for one buffer in Channel, ChannelShutdown and ChannelHang. A caller of async is taken to catch its exception and go on.
- LogClient.QueueSurvivesReconnects: says nothing beyond the first loss of a connection during a write, when the read and the write handler both start a connection attempt; LogDrops says what can happen there.
- LogTransport.StepKeepsInv: assumes that no connection is lost during a write, as an environment assumption, because frames can then be repeated and lost (LogDrops).
- LogOrder.NotifiedOnceEach: assumes the same.
- LogDrops.DropDuringWriteRepeats: is a run of handler events, as are the other runs of LogDrops; both attempts use the one socket of the client, and whether both can succeed depends on how Boost.Asio treats a second attempt on it. What pop_front does on the empty queue is not part of this model: the run ends there.
- LogDrops.NowhereExactlyWhenLost: takes a write to read its frame's bytes as they were; in the code a frame popped during another write is the very buffer its own write still reads.
- LogMessage.SynthetizeTotal: takes a missing key or a node of the wrong type for an exception that synthetize catches; what libconf's get and downcast do then is not part of this model.
- Subscribers.Notify: the subscriber set is read on the io thread of the server without synchronization with constructors and destructors of subscribers; the model runs these one after another.
- The destructor of the log client (its busy wait and m_terminate) and the session set of the log server, which only keeps sessions alive.
- Several endpoint pairs sharing one action's static mutex, and several clients on one endpoint.
- UUID generation: ids are assumed fresh.
- Byte order: time points are laid out least significant byte first, as on the machines the code is used on.
- Name demangling, the other columns of the formatter, Logger, daemonize and signals, the exception classes, configuration symbols and the preprocessor macros.
