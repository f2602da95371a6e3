# Verification of the EventStore Asio client

A Dafny model of the hand-written protocols of an Asio-based EventStore client, with proofs. It follows one
`io_context` run by one thread: posted tasks, timers, and an ordered stream of incoming packages. `dafny verify
dfyconfig.toml` checks the whole of it.

| file | what it models |
|---|---|
| `CatchupProtocol.dfy` | the catch-up stream subscription as a state machine: its handlers, interleaved with appends to the server's stream, read answers, the confirmation, live events, posted drain tasks and stopping; and the invariant of every run |
| `CatchupTheorems.dfy` | what such a subscription delivers, loses, leaves buffered, and when it ends |
| `CatchupSubscription.dfy` | the subscription object, over the chunked buffer; each handler refines its protocol step, and whole runs of the object follow the protocol |
| `BufferQueue.dfy` | the chunked FIFO queue over fixed-size arrays, refining a sequence |
| `TcpPackage.dfy` | the wire format: the two encoding constructors and the decoding view |
| `FrameReader.dfy` | the length-checked reader loop over a dynamic buffer |
| `SendQueue.dfy` | posted sends and the single outstanding write; encoder, queue, wire, reader and view end to end |
| `Operations.dfy` | the operations map, operations with their timers, and the dispatch of received packages |
| `SubscriptionDrop.dfy` | how a volatile or persistent subscription ends: guard, unsubscribe request, drop callback, acknowledgements |
| `Heartbeat.dfy` | the heartbeat watchdog in time, with its wrapping package counter |
| `Identify.dfy` | identification with bounded retries under one correlation id |
| `GossipCandidates.dfy` | the two-ended fill of the gossip candidates |
| `Seqs.dfy` | sequences, integer ranges and the two 32-bit conversions |

Each protocol has a datatype for its state, a function giving the next state for every kind of step, and a class
whose fields are the source's; every method of the class is proved to make exactly the step the function
describes. The lemmas then speak about all runs, that is, all lists of enabled steps. History the source does not
keep (what was delivered, called, written) is ghost.

## Results that differ from what one might expect

- **A catch-up subscription can lose one event.** `current_event_number_` is the next number to read, but the
  missed count is `last - current` and the test for missing events is strict. With L the confirmed last event number
  and c the counter at that moment, event L is never delivered when L >= c, and nothing else is ever lost
  (`LostEvent`, `NeverDelivered`, `GapFree`, `LossHappens`).
- **Stopping is not always clean.** A read of missed events that is outstanding when the subscription is stopped
  still delivers its events (`CleanStop` gives the exact condition, `StoppedDelivers` a run).
- **A catch-up subscription can be dropped twice.** Such a read, if it fails instead, asks for a second drop without
  looking at the guard: twice if and only if that happens, and never more often (`DropsTwiceIff`, `DropsTwice`).
- **A timed-out operation can throw.** If a response arrives between the expiry of an operation's timer and the run
  of its completion, the completion's map lookup throws (`ThrowsIffAnswered`, `ThrowHappens`). An identification in
  the same situation registers a moved-from handler when a retry is left (`CompletionFinds`, `RaceHappens`).
- **Login and password are cut at 255 bytes' worth of size.** A longer one is written whole behind a size byte that
  has wrapped, so it is not read back (`DecodeEncode`).
- **One acknowledgement can follow the end of a persistent subscription**: that of the event whose handler
  unsubscribed (`LateAcks`, `LateAckHappens`).
- **The watchdog can be fooled by the counter's wrap-around**, and then closes a live connection: it closes when the
  number of packages since its request is a multiple of 2^32, not only when it is zero (`ClosesIff`). Whatever the
  settings, it can close at the very moment of the last of 2^32 packages (`WrapCloses`).

## Model

| member | source | states |
|---|---|---|
| CatchupTheorems.HandOver | include/subscription/catchup_subscription.hpp:85-263 | in every reachable undropped state after the confirmation, delivered and buffered together are [from, max(c, L)) followed by the live events from L + 1 on; during the missed-event phase counter and remaining count add up to L, no request reaches past L, and the buffer holds exactly the live events so far |
| CatchupTheorems.DeliveredInOrder | include/subscription/catchup_subscription.hpp:41-263 | over every run, dropped or not, delivered event numbers strictly increase, and will with the buffered ones |
| CatchupTheorems.LostEvent | include/subscription/catchup_subscription.hpp:100-108 | of all events from the first wanted one on, exactly event L can be missing, and it is missing exactly when L >= c |
| CatchupTheorems.GapFree | include/subscription/catchup_subscription.hpp:100-108 | delivered and buffered events are gap-free if and only if L < c (and, for a client that asked beyond L + 1, no live event has come yet) |
| CatchupTheorems.CounterAtConfirmation | include/subscription/catchup_subscription.hpp:59-74 | the counter at the confirmation is at most L + 1, unless it still is a first number beyond the stream's end |
| CatchupTheorems.NeverDelivered | include/subscription/catchup_subscription.hpp:100-108 | once a confirmation finds L >= c, no continuation, a drop included, ever delivers event L |
| CatchupTheorems.LossHappens | include/subscription/catchup_subscription.hpp:100-108 | a concrete run in which the first event of a stream is never delivered |
| CatchupTheorems.CounterCountsDelivered | include/subscription/catchup_subscription.hpp:59-63 | over every run the counter is the first number wanted plus the number of events delivered |
| CatchupTheorems.OneRead | include/subscription/catchup_subscription.hpp:186-240 | no step other than an answer replaces an outstanding read request |
| CatchupTheorems.NotStranded | include/subscription/catchup_subscription.hpp:127-134 | with the gate open (L <= counter) and events buffered, exactly one drain task is posted |
| CatchupTheorems.GateStaysOpen | include/subscription/catchup_subscription.hpp:127-128 | an open gate never closes again |
| CatchupTheorems.DrainsEmpty | include/subscription/catchup_subscription.hpp:242-263 | ceil(n / max_live_queue_size) drain tasks run one after the other deliver n buffered events, in arrival order, and no task is left |
| CatchupTheorems.DrainsCounted | include/subscription/catchup_subscription.hpp:242-263 | in every undropped run without new arrivals, whatever is interleaved, the drain tasks run and those still to run add up to ceil(n / max_live_queue_size), or one if a task finds nothing buffered, and the sequence delivered and buffered does not change |
| CatchupTheorems.Quiescent | include/subscription/catchup_subscription.hpp:199-263 | with no read outstanding and no drain task posted, the buffer is empty and the whole hand-over sequence has been delivered |
| CatchupTheorems.SlicesIsCeiling | include/subscription/catchup_subscription.hpp:245-246 | the number of slices used in these bounds is the ceiling of the quotient |
| CatchupTheorems.HistoryReads | include/subscription/catchup_subscription.hpp:48-82 | against a stream that stopped growing at n, catch-up takes at most max(0, n - from) + 1 reads, and at most ceil((n - from) / batch) + 1 when the server fills its batches |
| CatchupTheorems.SubscribesAtEnd | include/subscription/catchup_subscription.hpp:65-74 | over every run the client subscribes if and only if some answer said that the stream ends; until then a read of a full batch at its counter is outstanding, or it was dropped, and afterwards it reads no more history |
| CatchupTheorems.HistoryGoesOn | include/subscription/catchup_subscription.hpp:55-74 | an answer is delivered whole, and followed by the next read, or by the subscription if and only if it ends the stream |
| CatchupTheorems.CompleteIff | include/subscription/catchup_subscription.hpp:48-116 | against a server that names the stream's end only with its last event, a client starting within the stream receives all of it if and only if nothing was appended between that answer and the moment the confirmation names; then L < c and no missed read is made |
| CatchupTheorems.ConfirmationTaken | include/subscription/catchup_subscription.hpp:92-116 | in every reachable undropped state a confirmation is taken over: subscribed with its number, reading missed events exactly when that is ahead of the counter; without a number the client drops |
| CatchupTheorems.SubscribedFrom | include/subscription/catchup_subscription.hpp:97-113 | over every run the client counts as subscribed exactly from a confirmation with a number to its drop |
| CatchupTheorems.MissedReads | include/subscription/catchup_subscription.hpp:200-240 | over a whole undropped run, however fast the stream grows, the missed phase takes at most L - c reads |
| CatchupTheorems.MissedEnds | include/subscription/catchup_subscription.hpp:200-240 | from any state after the confirmation, each missed read brings the counter closer to L |
| CatchupTheorems.CleanStop | include/subscription/catchup_subscription.hpp:142-145 | stopping outside the event handler is final, whatever happens next, if and only if no read of missed events that a server can answer is outstanding |
| CatchupTheorems.StoppedDelivers | include/subscription/catchup_subscription.hpp:200-215 | a concrete run in which a stopped client delivers an event |
| CatchupTheorems.DropsTwiceIff | include/subscription/catchup_subscription.hpp:233-238 | over every run the base class is asked to drop at most twice, not at all while the guard is open, and twice if and only if a read fails after the guard has locked |
| CatchupTheorems.DropsTwice | include/subscription/catchup_subscription.hpp:233-238 | a concrete run in which it is asked twice |
| CatchupInvariant.InvStep | include/subscription/catchup_subscription.hpp:41-263 | every step of client, server and executor keeps the phase invariant from which the theorems follow |
| CatchupSubscriptionModule.Run | include/subscription/catchup_subscription.hpp:40-267 | the object, driven through any run, passes through the protocol's states and ends with the hand-over sequence delivered and buffered |
| CatchupSubscriptionModule.CatchupSubscription.Perform | include/subscription/catchup_subscription.hpp:40-267 | every handler of the object makes exactly the protocol's step, including the effect on the chunked buffer |
| CatchupSubscriptionModule.CatchupSubscription.OnHistoryRead | include/subscription/catchup_subscription.hpp:55-82 | refines the protocol's history answer: deliver, count, then subscribe at end of stream or read on |
| CatchupSubscriptionModule.CatchupSubscription.OnMissedRead | include/subscription/catchup_subscription.hpp:203-239 | refines the protocol's missed answer: read the rest, or post the first drain |
| CatchupSubscriptionModule.CatchupSubscription.Confirmation | include/subscription/catchup_subscription.hpp:92-116 | refines the confirmation step, with the drop for a confirmation without an event number |
| CatchupSubscriptionModule.CatchupSubscription.StreamEvent | include/subscription/catchup_subscription.hpp:117-137 | refines the live-event step; throws exactly when no confirmation named an event number, with the event already buffered |
| CatchupSubscriptionModule.CatchupSubscription.ReadSubscriptionEvents | include/subscription/catchup_subscription.hpp:242-263 | the loop over front and pop delivers exactly the first min(n, max_live_queue_size) buffered events and keeps the rest |
| CatchupSubscriptionModule.CatchupSubscription.Drop | include/subscription/subscription_base.hpp:192-205 | locks the guard and leaves the buffer empty, whatever it held |
| BufferQueueModule.Run | include/buffer/buffer_queue.hpp:38-168 | for every chunk size and every run of pushes, pops, clears and swaps on two queues, each holds what the plain sequence holds |
| BufferQueueModule.BufferQueue.constructor | include/buffer/buffer_queue.hpp:38-40 | a queue starts valid and empty with its back index at 2^32 - 1 |
| BufferQueueModule.BufferQueue.Empty | include/buffer/buffer_queue.hpp:50 | true exactly for the empty sequence |
| BufferQueueModule.BufferQueue.Size | include/buffer/buffer_queue.hpp:52-61 | the sequence's length modulo 2^64, from the two wrapping indices and the chunk count |
| BufferQueueModule.BufferQueue.Front | include/buffer/buffer_queue.hpp:86-95 | the first element |
| BufferQueueModule.BufferQueue.PushBack | include/buffer/buffer_queue.hpp:124-168 | appends exactly the element, across a wrap of the back index and the opening of chunks |
| BufferQueueModule.BufferQueue.PopFront | include/buffer/buffer_queue.hpp:98-122 | drops exactly the first element, in the one-chunk and the many-chunk case |
| BufferQueueModule.BufferQueue.Clear | include/buffer/buffer_queue.hpp:63-68 | leaves the empty sequence and a queue that can be used on |
| BufferQueueModule.SwapQueues | include/buffer/buffer_queue.hpp:76-83 | exchanges the contents of two queues, which stay apart in memory; a queue swapped with itself stays as it is |
| Chunked.WindowLength | include/buffer/buffer_queue.hpp:52-61 | the number of visible elements is given by the indices and the chunk count alone |
| Chunked.PushInPlace | include/buffer/buffer_queue.hpp:124-152 | the slot behind the back index may hold any stale value; writing it appends and shows no other slot |
| Chunked.PushNewChunk | include/buffer/buffer_queue.hpp:124-152 | the same for slot 0 of a chunk opened behind a full one, whatever its other slots hold |
| Chunked.PopChunk | include/buffer/buffer_queue.hpp:98-122 | removing an exhausted first chunk drops the first element and nothing else |
| TcpPackage.EncodePlain | include/tcp/tcp_package.hpp:161-186 | null exactly when the flags ask for credentials; else the buffer is the frame of the package |
| TcpPackage.EncodeAuthenticated | include/tcp/tcp_package.hpp:188-225 | null exactly when the flags do not ask for credentials; else the buffer is the frame with the credentials block |
| TcpPackage.BytesLayout | include/tcp/tcp_package.hpp:18-25 | command, flags and correlation id lie at bytes 4, 5 and 6 to 21, credentials and message follow, and the prefix is the length without itself |
| TcpPackage.BlockLaid | include/tcp/tcp_package.hpp:206-224 | credentials lie as login size, login, password size, password, each size in one byte |
| TcpPackage.Tiling | include/tcp/tcp_package.hpp:52-102 | for every valid frame message_offset + message_size is its size, and header, credentials and message follow one another without gap or overlap |
| TcpPackage.DecodeEncode | include/tcp/tcp_package.hpp:32-225 | decoding an encoding gives the package back if and only if it has no credentials, or its flags byte is `authenticated` itself and login and password have at most 255 bytes each |
| TcpPackage.EncodeDecode | include/tcp/tcp_package.hpp:32-225 | every valid frame with a right length prefix is, byte for byte, the encoding of what it decodes to |
| TcpPackage.LoadStore | include/tcp/tcp_package.hpp:161-186 | a 32-bit length survives the store and load |
| TcpPackage.WordIsLittleEndian | include/tcp/tcp_package.hpp:161-186 | load and store read and write bytes by position, the first counting least |
| Framing.ScanSound | include/tcp/read.hpp:73-107 | a stream is cut into whole frames and a rest that holds none, with nothing lost or added |
| Framing.ScanUnique | include/tcp/read.hpp:73-107 | the framing round trip: the frames of a concatenation of frames are exactly those, and there is no other cut |
| Framing.ScanResume | include/tcp/read.hpp:128-145 | where the stream happens to be cut by arrival makes no difference |
| Framing.ScanTruncated | include/tcp/read.hpp:32-52 | a truncated stream gives exactly the packages wholly contained in it and no error |
| Framing.ScanBad | include/tcp/read.hpp:73-107 | a length below 18, negative ones included, or above 64 MiB ends the stream behind all earlier frames, whatever follows it; any other length waits for its bytes |
| Framing.EncodingIsFrame | include/tcp/read.hpp:73-107 | an encoding is accepted by the reader exactly when its length field is at most 64 MiB |
| FrameReaderModule.ReadAll | include/connection/basic_tcp_connection.hpp:223-253 | however the bytes arrive, the loop delivers the frames of the whole stream and closes exactly at a refused length |
| FrameReaderModule.FrameReader.Receive | include/tcp/read.hpp:128-145 | the loop's prepare, commit and consume keep delivered frames and buffered bytes equal to the scan of all input so far |
| FrameReaderModule.FrameReader.OnLength | include/tcp/read.hpp:73-107 | a refused prefix closes, an accepted one waits for exactly the bytes it announces |
| FrameReaderModule.FrameReader.OnMessage | include/tcp/read.hpp:32-52 | one whole frame is delivered and the buffer is ready for the next prefix |
| FrameReaderModule.FrameReader.Fail | include/connection/basic_tcp_connection.hpp:223-253 | a failed read closes the connection and delivers no partial frame |
| SendQueueSpec.EndToEnd | include/connection/basic_tcp_connection.hpp:123-138 | the packages encoded and handed to `async_send`, in any interleaving of posts, partial writes and failures, come out of the peer's reader and view as they were, in order |
| SendQueueSpec.Delivery | include/connection/basic_tcp_connection.hpp:123-138 | the frames on the wire are at every moment a prefix of those handed to `async_send`, never a refused length; the missing ones are still queued or posted, and none is missing once both are empty |
| SendQueueSpec.StateOf | include/connection/basic_tcp_connection.hpp:123-274 | every reachable state, read off the calls and completions alone: posted, queued and written frames are consecutive parts of the frames handed to `async_send`, cut by the number of tasks run and writes completed, and the wire is the first bytes of all of them, as many as were taken |
| SendQueueSpec.OneWrite | include/connection/basic_tcp_connection.hpp:255-274 | in every reachable state the writes started are the writes completed, or one more, and until an error there is an outstanding one exactly when the queue is not empty |
| SendQueueSpec.WriteGoesOn | include/connection/basic_tcp_connection.hpp:123-138 | no step but its own completion ends, replaces or joins an outstanding write |
| SendQueueSpec.SilentAfterFailure | include/connection/basic_tcp_connection.hpp:255-274 | after a failed write no byte is written any more, whatever is sent later |
| SendQueueModule.Sender.AsyncSend | include/connection/basic_tcp_connection.hpp:123-138 | makes the protocol's send step |
| SendQueueModule.Sender.RunPosted | include/connection/basic_tcp_connection.hpp:123-138 | makes the protocol's posted step: starts a write only if the queue was empty |
| SendQueueModule.Sender.OnWritten | include/connection/basic_tcp_connection.hpp:255-274 | makes the protocol's completion step: the next write, no write, or the end |
| SendQueueModule.Run | include/connection/basic_tcp_connection.hpp:123-274 | the object, driven through any run, passes through the protocol's states; its bytes are the first ones of all frames handed to it, and a peer reads a prefix of those frames |
| OperationsMapModule.OperationsMap.RegisterOp | include/operations_map.hpp:108-111 | registers a new key and never overwrites a registered one |
| OperationsMapModule.OperationsMap.Erase | include/operations_map.hpp:116 | forgets exactly the key |
| OperationSpec.Conservation | include/tcp/operation.hpp:44-102 | over all orders of response, expiry, queued completion and late response, a started operation either has its key in the map, a timer coming and no call yet, or was called exactly once and its key is gone |
| OperationSpec.ThrowsIffAnswered | include/tcp/operation.hpp:69-102 | a successful timer completion throws if and only if a response was dispatched before it ran, and then calls and erases nothing; otherwise it reports the timeout |
| OperationSpec.ThrowHappens | include/tcp/operation.hpp:69-102 | a run, for any key, in which the completion throws after the handler was called with the response |
| OperationSpec.FateIs | include/tcp/operation.hpp:44-102 | every operation in every reachable state, read off the order of its start, its responses, its timer's end and its completion alone: whether its key is registered, what its timer does, and what it was told, once |
| OperationSpec.AnsweredIff | include/connection/basic_tcp_connection.hpp:187-192 | over every run an operation is told of a response if and only if a package under its key came after its start and before its timer's completion ran |
| OperationSpec.ResponseIsTold | include/connection/basic_tcp_connection.hpp:187-192 | in every reachable state a package under a pending key is handed to its operation at once, whose key is gone and whose timer waits no longer, with the operations its handler starts registered |
| OperationSpec.StepInv | include/tcp/operation.hpp:44-102 | every step keeps that accounting, also when the called handler starts further operations before its own key is erased |
| RequestsModule.Requests.Initiate | include/tcp/operation.hpp:44-66 | makes the start step of a fresh key |
| RequestsModule.Requests.OnPackageReceived | include/connection/basic_tcp_connection.hpp:177-221 | counts the package modulo 2^32; it completes the pending operation, else is handed to the subscription's handler, else is answered if it is a heartbeat request, and nothing more |
| RequestsModule.Requests.OnTimer | include/tcp/operation.hpp:69-102 | makes the step of the timer completion, with the throwing lookup |
| RequestsModule.Run | include/tcp/operation.hpp:44-102 | the object, driven through any run, passes through the protocol's states, every operation being as its steps say |
| DropSpec.DropAccounting | include/subscription/subscription_base.hpp:60-246 | over every run: nothing of a drop exists before the guard locks; afterwards exactly one of unsubscribe operation with timer, posted drop task, or finished callback; at most one callback and one unsubscribe request; the reported error is the one that locked the guard or how the request failed |
| DropSpec.StoryIs | include/subscription/subscription_base.hpp:60-246 | every reachable state, read off the packages, calls and timer events alone: which events were handled, which package or call stopped the subscription and with which error, whether its end is requested, queued or over, and what was reported |
| DropSpec.AnswerEnds | include/subscription/subscription_base.hpp:220-228 | in every reachable state with a request to unsubscribe pending, any package under the key ends the subscription at once, with `unsubscribed`, both entries gone and the timer waiting no longer |
| DropSpec.ThrowsWhenOver | include/subscription/subscription_base.hpp:172-176 | a lookup throws exactly when the subscription is over and the user unsubscribes again or an expired request's completion runs late |
| DropSpec.StepInv | include/subscription/subscription_base.hpp:60-246 | every step keeps that accounting, and the callback runs in exactly the step that erases the subscription's entry |
| DropSpec.LockedIsSilent | include/subscription/subscription_base.hpp:69 | once the guard is locked no event handler runs and nothing is acknowledged |
| DropSpec.CallbackComes | include/subscription/subscription_base.hpp:207-245 | while the callback has not run, a timer, its completion or a drop task is due that brings it closer, and nothing delays it |
| DropSpec.AcksFollowEvents | include/subscription/persistent_subscription.hpp:121-134 | over every run the automatic acknowledgements are exactly those of the delivered ids, in order, for an auto-acknowledging subscription, and none for others |
| DropSpec.LateAcks | include/subscription/persistent_subscription.hpp:121-134 | an acknowledgement follows the locking of the guard if and only if the event handler itself unsubscribed from an auto-acknowledging subscription, and then there is one |
| DropSpec.LateAckHappens | include/subscription/persistent_subscription.hpp:121-134 | a run, for any event, in which it does |
| SubscriptionBaseModule.SubscriptionBase.UnsubscribeWith | include/subscription/subscription_base.hpp:192-246 | makes the protocol's locking step: a request with a timer, or a posted drop |
| SubscriptionBaseModule.SubscriptionBase.UserCall | include/subscription/subscription_base.hpp:172-176 | makes the protocol's user step, with the throwing lookup once the entry is gone |
| SubscriptionBaseModule.SubscriptionBase.ChildHandles | include/subscription/persistent_subscription.hpp:99-168 | what a volatile or persistent child handles itself, re-entering the registered handler on a server drop; the rest is left to the base unchanged |
| SubscriptionBaseModule.SubscriptionBase.HandlePackage | include/subscription/subscription_base.hpp:67-168 | makes the protocol's package step for every kind of package and drop reason |
| SubscriptionBaseModule.SubscriptionBase.OnReceived | include/connection/basic_tcp_connection.hpp:186-198 | a pending unsubscribe operation takes any package under the key; otherwise the subscription does |
| SubscriptionBaseModule.SubscriptionBase.OnTimer | include/tcp/operation.hpp:69-102 | makes the protocol's step of the unsubscribe operation's timer completion |
| SubscriptionBaseModule.SubscriptionBase.OnPosted | include/subscription/subscription_base.hpp:235-245 | makes the protocol's step of the posted drop |
| SubscriptionBaseModule.Run | include/subscription/subscription_base.hpp:52-246 | the object, driven through any run, passes through the protocol's states, where its story says; its drop callback runs at most once, the subscription's entry being gone |
| HeartbeatSpec.Detection | include/tcp/heartbeat.hpp:52-150 | no open connection outlives its last package by more than max(I, T) + I + T, and the watchdog's close comes by then, with no assumption on the counter |
| HeartbeatSpec.DetectionOverRuns | include/tcp/heartbeat.hpp:52-150 | the same bound measured from the last arrival among the steps of the run, all of which were counted |
| HeartbeatSpec.Look | include/tcp/heartbeat.hpp:63-123 | a firing timer ends the chain of a closed connection; on an open one it starts an interval if the packages since the last look are no multiple of 2^32, else sends one request after an interval, else closes |
| HeartbeatSpec.ClosedFires | include/tcp/heartbeat.hpp:63-68 | the timer armed when the peer closes still fires and arms no further one |
| HeartbeatSpec.ClosedEnds | include/tcp/heartbeat.hpp:63-68 | a closed connection sees at most one more firing, no request and no close by the watchdog |
| HeartbeatSpec.BoundAttained | include/tcp/heartbeat.hpp:52-150 | for every interval and timeout some run closes exactly at that bound |
| HeartbeatSpec.ClosesIff | include/tcp/heartbeat.hpp:70-123 | a firing timer closes if and only if it is not an interval stage's, the timeout has run since the last request, and the packages since then are a multiple of 2^32 |
| HeartbeatSpec.WrapCloses | include/tcp/heartbeat.hpp:70-123 | for every setting a run of 2^32 packages between a request and its timeout, the last at the moment of the timeout, that ends in the close |
| HeartbeatSpec.ClosesAfterSilence | include/tcp/heartbeat.hpp:70-123 | with fewer than 2^32 packages since the last interval stage began, it closes only after silence for the whole timeout and for the interval before it |
| HeartbeatSpec.RequestsSeparated | include/tcp/heartbeat.hpp:91-118 | between any two heartbeat requests a package was received |
| HeartbeatModule.Heartbeat.Initiate | include/tcp/heartbeat.hpp:52-124 | makes the protocol's check, comparing an `int` with the `unsigned int` counter |
| HeartbeatModule.Heartbeat.OnPackage | include/connection/basic_tcp_connection.hpp:184 | counts a package modulo 2^32 |
| HeartbeatModule.Run | include/tcp/heartbeat.hpp:31-150 | the object, driven through any run, passes through the protocol's states; while open it is within the bound of its last package |
| IdentifySpec.Retries | include/tcp/identify.hpp:142-166 | after k timeouts in a row min(k, max) + 1 packages went out under one id, the first handler is in the map throughout, and it is called with the timeout after the last package and not before |
| IdentifySpec.CompletionFinds | include/tcp/identify.hpp:142-175 | over every run at most max + 1 packages go out, one for each retry; a completion, of a timer expired or failed, finds the first handler in the map if and only if no response was dispatched to it, registers a moved-from one on a retry after a response, and without a retry throws exactly when the entry is gone and else reports the timeout or the error |
| IdentifySpec.ResponseIsTold | include/connection/basic_tcp_connection.hpp:187-192 | in every reachable state a response is handed to the registered handler at once and empties the entry; without an entry it changes nothing |
| IdentifySpec.AnsweredInTime | include/tcp/identify.hpp:86-102 | an identification answered while its timer waits has succeeded: no continuation sends, calls or throws any more |
| IdentifySpec.RaceHappens | include/tcp/identify.hpp:142-175 | for every number of retries a run in which a response precedes the completion: a moved-from handler is registered if a retry is left, else the completion throws |
| IdentifyModule.IdentifyOp.Start | include/tcp/identify.hpp:56-139 | makes the protocol's send-and-register step, which does not overwrite |
| IdentifyModule.IdentifyOp.OnTimer | include/tcp/identify.hpp:142-175 | makes the protocol's step of the timer completion |
| IdentifyModule.Run | include/tcp/identify.hpp:56-175 | the object, driven through any run, passes through the protocol's states and sends at most max + 1 packages |
| GossipCandidates.Fill | include/tcp/cluster_discovery_service.hpp:192-210 | every slot is written once: the indices meet, slot by slot the front holds the non-managers in order and the back the managers in reverse, and the whole is a permutation of the candidates |
| GossipCandidates.BackIsReversed | include/tcp/cluster_discovery_service.hpp:201-209 | filling from the back leaves the managers in reverse order |
| GossipCandidates.EndpointsPartition | include/tcp/cluster_discovery_service.hpp:201-209 | managers and others together are the candidates, each once |

## Left out

Assumptions of the model:

- The server's stream is dense and event numbers are unbounded integers; sparse or truncated streams, link
  resolution and the 64-bit width are not modelled. A read returns contiguous events, at most as many as asked for,
  and at least one if there is one. A read with a count below one (from the `(int)` cast of a missed count of 2^31 or
  more) can only fail. The server confirms a subscription once, naming an event number current at some moment after
  the request, and live events follow in order.
- Posted tasks of different kinds run in any order; those of one kind in the order they were posted.
- Correlation ids are fresh. Sockets, DNS, HTTP, JSON, protobuf, logging and the generation of ids are foreign calls:
  their results are parameters, and message bodies are opaque.
- BufferQueueModule.BufferQueue.PopFront: popping (or reading the front of) an empty queue is undefined in the source
  and is a precondition here.
- TcpPackage.DecodeEncode: frames whose login size points past their end make the view read outside the buffer; that
  they do not is the precondition `InBounds`. Frames are smaller than 2^32 bytes.
- CatchupSubscriptionModule.CatchupSubscription.StreamEvent: the number of buffered events is below 2^64.
- CatchupSubscriptionModule.CatchupSubscription.Drop: what follows the guard's locking (request, timer, drop
  callback) is counted only; it is the subject of `SubscriptionDrop.dfy`.
- CatchupTheorems.CleanStop: unsubscribing from inside the event handler, in the middle of a slice or drain, is not a
  step of the catch-up model. A late answer calls the event handler through a reference held by the subscription's
  entry; once the drop callback has erased that entry, the call the model logs is undefined behaviour in the source.
- CatchupTheorems.DropsTwiceIff: the same holds for the drop handler of a late failure.
- RequestsModule.Requests.OnPackageReceived: what a subscription's handler does with its package is the subject of
  `SubscriptionDrop.dfy` and the catch-up files; the heartbeat response itself is only counted.
- DropSpec.AcksFollowEvents: acknowledgements the user sends by calling `acknowledge` are not modelled.

Not modelled:

- Starting a subscription again after it was dropped; one start is followed.
- `catchup_all_subscription`, whose missed phase stops only on equality of positions.
- Whether an identification was authenticated, and the authentication operation itself.
- What happens to the gossip candidates after the fill (copying, shuffling, best-node choice), and the 32-bit width
  of its indices.
- Copies, moves and allocators of packages, operations and queues, except that a moved-from handler is told apart in
  `Identify.dfy`.
- Settings builders, request wrappers, transactions and error-message tables.
