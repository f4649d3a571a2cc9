# HareCpp's consumer, producer and channel handler

HareCpp wraps rabbitmq-c. Around the wrapped calls it keeps two small concurrent protocols, a double
index of subscriptions and a connection flag. This project models those and proves what they keep
on every run. The broker, the clock, the allocator and the order of hash maps are arbitrary.

## How it is laid out

| file | contents |
|---|---|
| `HareErrors.dfy`, `Connection.dfy` | return codes; reply decoding; the class `ConnectionBase`, with ghost records of the connections established and destroyed, of every call made on the live one with its arguments and its code, and of every message published |
| `Bindings.dfy`, `ChannelHandler.dfy` | subscriptions as one plain table; the class `ChannelHandler` with its two maps that share records, proved to stand for that table |
| `ConsumerProtocol.dfy`, `ConsumerSafety.dfy`, `ConsumerTheorems.dfy`, `ConsumerFairness.dfy`, `ConsumerProperties.dfy`, `ConsumerHistories.dfy` | the consumer as a state machine, its invariant, theorems over all runs, and what a run does with what its callers gave |
| `Consumer.dfy` | the class `Consumer`, written as the source is |
| `ProducerProtocol.dfy`, `ProducerSafety.dfy`, `ProducerTheorems.dfy`, `ProducerHistories.dfy`, `Producer.dfy` | the same for the producer |
| `Locks.dfy` | which function takes which mutex, and freedom from deadlock |
| `QueueNames.dfy` | who owns the queue-name buffers |

A step of a state machine is the code under one mutex, one call of the broker, or one unlocked
operation on a queue. In the classes each step is a method (`...Section`) that changes the real
fields and is proved to be that step; the methods named after the source's functions run the
sections in the source's order, with any number of steps of any other threads between two of them.
The protocol gives each location of a thread one next section, so such a method cannot skip or swap one.
Ghost fields record the run, so the theorems over runs hold of the objects.

Some state only observes and never steers: the consumer's `mon` (calls made on this connection,
channels consuming on it, everything pushed, popped and attempted), the producer's `enqueued`,
`handled`, `accepted`, `firstTry`, `answers` (calls made on this connection and how the broker
answered them) and `flagEpoch`. What they say was asked of the broker is not a note made beside the
call: the classes' invariants equate it with the record that `ConnectionBase` keeps of the arguments
it was called with.

## Assumptions

- One controlling thread calls Initialize, Start, Stop, Restart and the destructor; Initialize is
  not called while the thread runs; the producer is initialized before it is stopped.
- Message callbacks do not call the consumer that runs them, since `Process` holds the handler mutex
  meanwhile. In `Locks.dfy` they may make any call of a producer, Start, Stop and Restart included.
- One operation of `std::queue` is atomic, also where the source uses the queue without its mutex.
- Messages given to `Send` have a body.

## Where the code differs from what one would expect

The models do what the code does.

- `DeclareQueue` shadows the error it decodes and always reports success
  (src/ConnectionBase.cpp:276). A consuming channel is therefore one for which declare was called,
  and after a failed declare an uninitialised pointer is stored and later freed:
  `QueueNames.CodeSafeIffDeclaresSucceed`, `QueueNames.FailedDeclareFaults`.
- Errors the decoder does not know decode to success (src/ConnectionBase.cpp:331-334, 389-392):
  `Connection.DecodedCodes`. Even with the inner error returned, copying the name of a queue the
  library did not return is then a null dereference: `QueueNames.ReturnedErrorSafeIffKnown`.
- The producer's loops copy the elements of the exchange list (src/Producer_priv.cpp:117, 127):
  success marks the copy (`Producers.Producer.OpenAndDeclare`), so no stored element is ever marked
  connected and each pass reopens all (`ProducerTheorems.EveryPassReopens`).
- The publisher never asks whether the channel it publishes on is open. A channel is open from an
  OpenChannel that reported ALL_GOOD until the connection closes or the broker answers a call on the
  channel with a channel exception, by which it closes the channel. It need not be open, on four
  counts, each with a run that shows it: `closeConnection` leaves `m_channelsConnected` set
  (src/Producer_priv.cpp:115-119), so the flag outlives its connection
  (`ProducerTheorems.StaleFlagIsReachable`); a first Send to a new exchange may come after the pass
  (`ProducerTheorems.LateSendIsReachable`); a refused open does not keep the worker from publishing
  (src/Producer_priv.cpp:135-138, 162-165; `ProducerTheorems.RefusedOpenIsReachable`); and a declare
  answered with a channel exception neither clears `allGood` nor has the channel opened again
  (src/Producer_priv.cpp:140-151; `ProducerTheorems.ClosedChannelIsReachable`).
  `ProducerTheorems.PublishesOnOpenChannelIff` says exactly when it is open, and
  `ProducerTheorems.FlagTrustedIffSetHere` when the flag can be trusted.
- So the flag does not speak of declared exchanges either: `ProducerTheorems.UndeclaredFlagIsReachable`,
  and `ProducerTheorems.FlagMeansDeclaredIff` says exactly when it does.
- Subscribe adds a channel before it sets the channel's properties, and start-up may declare the queue
  in between, with the defaults: `ConsumerProperties.OtherPropertiesAreReachable`. The push at its end
  has the channel set up again: `ConsumerProperties.DeclaredAsRegistered`.
- Stopping a consumer between the worker's size test and its pop can make it pop an empty queue
  (src/Consumer_priv.cpp:170-172): `ConsumerTheorems.FaultIsReachable`; and
  `ConsumerTheorems.PopFaultsIff` says exactly when it does, on every run.
- Subscribing a pair again works, and reports UNABLE_TO_SUBSCRIBE: `Bindings.ResubscribeKeepsQueue`.
- Destroying a producer that is not running does not drain its queue, since only a running one is
  stopped (src/Producer_api.cpp:139): `ProducerTheorems.DestructorLeaksIffQueued` is exact, and
  `ProducerTheorems.LeakIsReachable` a run that leaks.
- The producer's Stop closes and drains even when it reports THREAD_NOT_RUNNING; its Restart then
  does not start again: `Producers.Producer.Stop`, `Producers.Producer.Restart`.

## Model

| member | source | states |
|---|---|---|
| ConsumerTheorems.NoSubscriptionLost | src/Consumer_priv.cpp:117-192 | in every reachable state, with any number of Subscribes under way, while running, connected and outside Stop, each registered channel is consuming, pending, being set up, yet to be listed or visited by start-up, held by a Subscribe before its push, or covered by an abort about to close the connection |
| ConsumerTheorems.LoopHeadCovers | src/Consumer_priv.cpp:158-175 | at the loop head, with no Subscribe between add and push, every registered channel is consuming or pending |
| ConsumerTheorems.ConsumingWasSetUp | src/Consumer_priv.cpp:57-91 | a consuming channel was opened, declared, bound to exactly the exchange and key it is registered under, and consumed, in that order on the live connection, with no later call on it; the class equates these calls with those its connection got |
| ConsumerTheorems.ConnectionsNeverOverlap | src/Consumer_priv.cpp:162-182 | the worker connects only while disconnected; every connection but the live one was destroyed exactly once; after the destructor all were |
| ConsumerTheorems.StartUpAttemptsAll | src/Consumer_priv.cpp:137-156 | on a live connection whose start-up pass did not abort, the pass attempted every channel of its list snapshot first and in order, whatever stale entries pending held |
| ConsumerTheorems.StopEndsDisconnected | src/Consumer_api.cpp:92-112 | every run of Stop begun on a running consumer ends not running, not connected and without a thread |
| ConsumerTheorems.StopStepEnds | src/Consumer_api.cpp:96-109 | begun on a running consumer, Stop can only end by the close |
| ConsumerTheorems.WorkerWindsDown | src/Consumer_priv.cpp:158-175 | once Stop has cleared the flag no step starts an iteration, each worker step descends, a step is always possible until the thread returns, and no other thread undoes this |
| ConsumerTheorems.WorkerDescends | src/Consumer_priv.cpp:117-192 | with the flag clear every worker step lowers a lexicographic measure of what the iteration has left |
| ConsumerTheorems.EmptyingInWindowFaults | src/Consumer_api.cpp:94 | emptying the pending queue between the worker's size test and its pop makes the pop hit an empty queue |
| ConsumerTheorems.PopFaultsIff | src/Consumer_priv.cpp:170-172 | in every run, a pop hits an empty queue if and only if a Stop, a Restart or the destructor emptied it after the worker's size test and no Subscribe has pushed since |
| ConsumerTheorems.OnlyPopFaults | src/Consumer_priv.cpp:98-103 | no other step of any thread uses the front of an empty queue |
| ConsumerTheorems.FaultIsReachable | src/Consumer_priv.cpp:170-172 | a run with the fault exists |
| ConsumerTheorems.DispatchRunsLastAdded | src/ChannelHandler.cpp:94-120 | on every run of the consumer a pair dispatches to the callback of the last Subscribe step that added it, and to none if there was none |
| ConsumerProperties.DeclaredAsRegistered | src/Consumer_api.cpp:43-61 | at the loop head, running, connected and outside Stop, a consuming channel that is not pending and that no Subscribe holds was declared with its registered properties |
| ConsumerProperties.UpToDateKept | src/Consumer_priv.cpp:57-91 | every step of every thread keeps this: a consuming channel, or one past its declare, was declared with its registered properties or is going to be declared again |
| ConsumerProperties.OtherPropertiesAreReachable | src/Consumer_api.cpp:43-61 | a run in which a channel consumes from a queue declared with other properties than those registered, while a Subscribe holds it |
| ConsumerHistories.PropertiesAsGiven | src/Consumer_api.cpp:43-56 | on every run, each registered channel goes back to one call of Subscribe: it has that call's pair, and that call's properties once they are set, the defaults before |
| ConsumerHistories.PendingWasPushed | src/Consumer_priv.cpp:137-156 | start-up begins with an empty pending queue: whatever is in it later was pushed since, by a set-up that failed or by a Subscribe |
| ConsumerHistories.RetriedOnlyIfPushed | src/Consumer_priv.cpp:137-175 | so a channel is retried after start-up only if its set-up failed or a Subscribe pushed it since start-up began |
| ConsumerFairness.RetriesInOrder | src/Consumer_priv.cpp:98-108 | without reconnect or Stop, and with any Subscribes beside it, the next j iterations attempt exactly the first j pending channels in order, and the rest stay at the front |
| ConsumerFairness.RoundLeavesFailed | src/Consumer_priv.cpp:158-175 | with no new subscription, n iterations over n pending channels leave exactly the failed ones in order; the queue never grows and drains once all succeed |
| ConsumerFairness.GoodRoundSetsUpAll | src/Consumer_priv.cpp:158-175 | after a round in which every set-up succeeds, on a connection still up and with no Subscribe between add and push, every registered channel is consuming |
| ConsumerFairness.StretchProgress | src/Consumer_priv.cpp:130-132 | along such a stretch pushes are pops followed by the queue, attempts are exactly the pops, and each iteration pops once while the starting channels last |
| ConsumerFairness.StretchOnlyRetries | src/Consumer_priv.cpp:158-175 | with no new subscription the queue's traffic is one outcome per pop, and the pushes are the failed ones |
| ConsumerSafety.InvKept | src/Consumer_priv.cpp:117-192 | every step of every thread keeps the conjunction of the consumer's invariants |
| Bindings.ChannelOf | src/ChannelHandler.cpp:35-49 | the channel found for a pair is registered for that pair; none is found only if there is none |
| Bindings.UpdateKeepsChannels | src/ChannelHandler.cpp:35-75 | no update changes a pair's channel or makes two channels share a pair |
| Bindings.FirstSubscribe | src/Consumer_api.cpp:43-61 | a first Subscribe gives the next channel, with the given callback and properties and a null name, and succeeds |
| Bindings.ResubscribeKeepsQueue | src/Consumer_api.cpp:43-56 | a second one swaps the callback, keeps channel, name, properties and all other entries, and reports UNABLE_TO_SUBSCRIBE |
| Bindings.DispatchAfterUpdate | src/ChannelHandler.cpp:94-120 | an update changes the dispatch of the pair it subscribes and of no other |
| Bindings.DispatchRunsLastGiven | src/ChannelHandler.cpp:94-120 | after any history of subscriptions, names and properties a pair runs exactly the callback last given for it, and none if there was none |
| ChannelHandlers.ChannelHandler.IndexesAgree | include/ChannelHandler.hpp:75-93 | pairs and channels are in bijection through the same records, each record's stored pair is its key, and the channels are exactly 1..next-1 |
| ChannelHandlers.ChannelHandler.AddChannelProcessor | src/ChannelHandler.cpp:35-75 | table and return code are those of the plain table; the maps still agree |
| ChannelHandlers.ChannelHandler.SetQueueName | include/ChannelHandler.hpp:228-237 | stores the name in the channel's shared record and frees the one stored before, and only for a registered channel |
| ChannelHandlers.ChannelHandler.SetQueueProperties | include/ChannelHandler.hpp:261-270 | replaces that channel's properties and nothing else |
| ChannelHandlers.ChannelHandler.GetExchange | include/ChannelHandler.hpp:182-188 | the exchange of the channel's pair, or the empty string |
| ChannelHandlers.ChannelHandler.GetBindingKey | include/ChannelHandler.hpp:196-202 | the key of the channel's pair, or the empty string |
| ChannelHandlers.ChannelHandler.GetQueueProperties | include/ChannelHandler.hpp:246-252 | the channel's properties, or the defaults |
| ChannelHandlers.ChannelHandler.Process | src/ChannelHandler.cpp:94-120 | runs what the table dispatches |
| ChannelHandlers.ChannelHandler.GetChannelList | src/ChannelHandler.cpp:122-130 | every registered channel exactly once |
| ChannelHandlers.ChannelHandler.Destroy | include/ChannelHandler.hpp:110-115 | if each stored name is null or a live buffer held once, frees exactly those, each once |
| ChannelHandlers.FreeNames | include/ChannelHandler.hpp:112-114 | the destructor's loop, in any order of the map |
| Connection.DecodedCodes | src/ConnectionBase.cpp:306-395 | exactly which replies decode to each code, success included |
| Connection.CloseOnce | src/ConnectionBase.cpp:70-97 | a repeated close does nothing; close, and connect while disconnected, keep connections well bracketed |
| Connection.BracketedIffNoOverlap | src/ConnectionBase.cpp:134-153 | a history of connects and closes destroys every connection but the live one exactly once, in order, if and only if no connect succeeded while one was live |
| Connection.ConnectionBase.Connect | src/ConnectionBase.cpp:104-153 | connected exactly when socket, open and login succeed; each code exactly for the first of them to fail; a new connection begins without calls |
| Connection.ConnectionBase.CloseConnection | src/ConnectionBase.cpp:70-97 | destroys the live connection, if any, and always ends disconnected, with its calls forgotten; exactly which replies it reports, and how |
| Connection.ConnectionBase.OpenChannel | src/ConnectionBase.cpp:169-191 | asks the broker for the open of that channel and nothing else, and for nothing while disconnected; success exactly for a live connection and a reply that decodes to success; a server failure exactly when the connection is down or the reply says it is lost; a channel exception exactly when the broker closed the channel |
| Connection.ConnectionBase.DeclareExchange | src/ConnectionBase.cpp:155-167 | asks the broker for the declare with that channel, name and type and nothing else, and for nothing while disconnected; success exactly for a live connection and a reply that decodes to success; a server failure exactly when the connection is down or the reply says it is lost; a channel exception exactly when the broker closed the channel |
| Connection.ConnectionBase.PublishMessage | src/ConnectionBase.cpp:206-240 | publishes the message it is given, stamped with the time only while connected and only if it has none; exactly when it returns success, a server failure or PUBLISH_ERROR |
| Connection.ConnectionBase.DeclareQueue | src/ConnectionBase.cpp:262-291 | asks for a queue with the given properties; always reports success; a name is allocated only if the reply decoded to success |
| Connection.ConnectionBase.BindQueue | src/ConnectionBase.cpp:293-304 | asks the broker to bind the channel's queue to the given exchange with the given key and for nothing else; which replies are successes and which server failures |
| Connection.ConnectionBase.StartConsumption | src/ConnectionBase.cpp:252-260 | asks to consume on the given channel; which replies are successes and which server failures |
| Connection.ConnectionBase.ConsumeMessage | src/ConnectionBase.cpp:241-250 | the caller has the delivered message exactly after a normal reply; after an error the decoder does not know it is told of a success and has an envelope nobody filled; it is told of a server failure exactly when the connection is down or has just been lost |
| Consumers.Consumer.SetupAndConsume | src/Consumer_priv.cpp:117-135 | under any interference, the channel is consuming afterwards exactly if no call failed; then the connection has got all four calls, in order, the bind with the channel's own pair; it returns the failed call's code after pushing the channel back, and touches neither the list being visited nor the connection |
| Consumers.Consumer.SetUpOnThisConnection | src/Consumer_priv.cpp:117-135 | for a channel counted as consuming, the live connection has got the four calls in order |
| Consumers.Consumer.DeclareQueue | src/Consumer_priv.cpp:57-70 | the one call the connection gets is a declare with the properties the channel is registered with; it always goes on to the bind |
| Consumers.Consumer.BindQueue | src/Consumer_priv.cpp:72-85 | the one call the connection gets binds to the exchange and the key the channel is registered under; on to the consume after a success, else to the push back |
| Consumers.Consumer.StartConsumption | src/Consumer_priv.cpp:137-156 | lists every registered channel once and attempts a prefix of that list in order: all of it unless a server failure aborts the pass, which leads to the close |
| Consumers.Consumer.ConnectAndStartConsumption | src/Consumer_priv.cpp:177-192 | on success it is connected and every listed channel was attempted; after a server failure it is not connected |
| Consumers.Consumer.PullNextMessage | src/Consumer_priv.cpp:194-227 | a message with an exchange runs the callback its own pair had when it was pulled, which is that of the last Subscribe that added it, and none if there was none; one without an exchange, or no message, runs none; an unfilled envelope is taken for whatever pair it holds; the connection is closed exactly after a server failure found while connected, if the consumer is running in the state in which that is then asked, and else stays as it was |
| Consumers.Consumer.RetryOnePending | src/Consumer_priv.cpp:168-173 | at most one retry as a run of the protocol, ending at the loop head or at the pop of an emptied queue |
| Consumers.Consumer.Thread | src/Consumer_priv.cpp:158-175 | the worker's loop as a run of the protocol, for any number of rounds |
| Consumers.Consumer.Subscribe | src/Consumer_api.cpp:33-64 | begins as the call with these very arguments; NOT_INITIALIZED exactly if the consumer was not initialized in the state in which this thread tests it, else UNABLE_TO_SUBSCRIBE exactly if the pair had a channel in the state in which this thread adds it; from its add on the pair dispatches to this callback; after a success its channel has these properties |
| Consumers.Consumer.Start | src/Consumer_api.cpp:66-90 | the code of each case; it succeeds exactly if the consumer is initialized and not running, and then a new thread runs |
| Consumers.Consumer.Stop | src/Consumer_api.cpp:92-112 | the code for each case; on a running consumer it ends not running, not connected, thread joined, and the code is that of the close, its last step |
| Consumers.Consumer.Restart | src/Consumer_api.cpp:132-139 | on a running consumer the code is that of Stop's close, and it starts again exactly if that is ALL_GOOD, then with a new thread and not yet connected; the code for each other case |
| Consumers.Consumer.PopNextPendingChannelSection | src/Consumer_priv.cpp:98-103 | takes the front channel; faults exactly on an empty queue |
| Consumers.Consumer.EmptyPendingChannels | src/Consumer_priv.cpp:110-115 | empties the queue |
| Consumers.Consumer.Safe | src/Consumer_priv.cpp:158-192 | every state of the object is reachable in the protocol and satisfies its invariant |
| ProducerTheorems.SendQueueConserved | src/Producer_priv.cpp:103-119 | on every run, what was queued is what was handled followed by the queue, in order, timestamps aside |
| ProducerTheorems.AcceptedIsSubsequence | src/Producer_priv.cpp:162-179 | what the broker accepted is, in order and each at most once, a subsequence of what was sent |
| ProducerTheorems.DropsOnlyWhenClosed | src/Producer_api.cpp:88-112 | a message leaves only from the front: published, or dropped while disconnected by closeConnection or Stop |
| ProducerTheorems.StepQueue | src/Producer_priv.cpp:162-179 | all a step can do to the send queue: nothing, append, try the front, or remove the front |
| ProducerTheorems.OthersOnlyAppend | src/Producer_api.cpp:41-66 | while the publisher exists, the other threads only append |
| ProducerTheorems.PopsWhatWasPublished | src/Producer_priv.cpp:173-177 | the message freed and popped is the one just published, however many Sends interleave |
| ProducerTheorems.ChannelsAndRouting | src/Producer_priv.cpp:62-101 | distinct exchanges have distinct channels, exactly 1..m_curChannelNumber-1, and every queued message carries its exchange's channel |
| ProducerTheorems.ChannelsNeverChange | src/Producer_priv.cpp:62-101 | along any run, restarts included, no exchange is forgotten or renumbered |
| ProducerTheorems.BuffersExactlyQueued | include/HelperStructs.hpp:62-66 | the live buffers are exactly the disjoint buffers of the queued messages; nothing is freed twice |
| ProducerTheorems.DisjointAre | src/Producer_api.cpp:50-62 | the three buffers of a message differ, and two queued messages share none |
| ProducerTheorems.StopFreesAll | src/Producer_api.cpp:104-109 | Stop ends with an empty queue, no live buffer, not running and not connected |
| ProducerTheorems.DestructorLeaksIffQueued | src/Producer_api.cpp:137-150 | on every run of the destructor in which no Send is queueing, buffers are left if and only if the producer was not running and had messages queued when it was called |
| ProducerTheorems.LeakIsReachable | src/Producer_api.cpp:137-150 | a run that leaks exists |
| ProducerTheorems.FlagSoundUntilClose | src/Producer_priv.cpp:121-160 | from the pass that set the flag until its connection closes, the flag means every exchange in the list had its channel opened on it, despite concurrent Send and DeclareExchange |
| ProducerTheorems.FlagMeansDeclaredIff | src/Producer_priv.cpp:140-156 | while the flag is set on the connection of its pass, every exchange to be declared has been, with its present type, as the broker last answered, if and only if no exchange's last declare was refused: each has been answered |
| ProducerTheorems.UndeclaredFlagIsReachable | src/Producer_priv.cpp:140-156 | a run with the flag set here, all channels open and an exchange not declared, its declare having got no reply |
| ProducerTheorems.OpenIffOpened | src/ConnectionBase.cpp:169-191 | on every run a channel is open exactly if an OpenChannel on it succeeded on the present connection and no call on it was answered with a channel exception since |
| ProducerTheorems.PublishesOnOpenChannelIff | src/Producer_priv.cpp:162-179 | the message about to be published goes out on an open channel if and only if a pass on this connection opened the channel of its exchange and no open or declare for that exchange was answered with a channel exception since; with the flag set, if and only if its pass ran on this connection and the exchange's last declare did not close the channel |
| ProducerTheorems.FlagTrustedIffSetHere | src/Producer_priv.cpp:110-119 | while connected, the flag means that every channel is open if and only if the pass that set it ran on this connection and no exchange's last declare was answered with a channel exception, or there is no exchange |
| ProducerTheorems.StaleFlagIsReachable | src/Producer_priv.cpp:115-119 | a run publishes after a reconnect, with the flag set, on a channel not opened on the connection |
| ProducerTheorems.LateSendIsReachable | src/Producer_priv.cpp:48-53 | a run publishes on an unopened channel on the first connection, after a Send that came when the pass was over |
| ProducerTheorems.RefusedOpenIsReachable | src/Producer_priv.cpp:135-138 | a run publishes on a channel whose open was refused |
| ProducerTheorems.ClosedChannelIsReachable | src/Producer_priv.cpp:140-151 | a run publishes, with the flag set by a pass on this connection that opened the channel, on the channel that the answer to a declare has closed |
| ProducerTheorems.EveryPassReopens | src/Producer_priv.cpp:127-128 | every pass opens every exchange: no stored element is ever marked connected |
| ProducerTheorems.PassCallsAsListed | src/Producer_priv.cpp:127-153 | each call of a pass goes out on a live connection with the channel, and for a declare the name and type, that the list has for the exchange being visited; only a marked exchange is declared |
| ProducerTheorems.DeclaresFollowOpens | src/Producer_priv.cpp:127-153 | on every connection each declare comes right after the accepted open of its exchange's channel |
| ProducerHistories.EnqueuedAsSent | src/Producer_api.cpp:41-66 | on every run, the n-th message ever queued has exactly the exchange, routing key, timestamp and body given to the n-th Send to queue one |
| ProducerHistories.QueuedOnce | src/Producer_api.cpp:41-66 | no Send queues two messages |
| ProducerHistories.SendIsQueued | src/Producer_api.cpp:41-66 | on every run, a Send that has returned ALL_GOOD has queued its message |
| ProducerHistories.MessageAsSent | src/ConnectionBase.cpp:213-222 | wherever a message is, it is what its Send gave, with the user's timestamp, else that of its first connected publish attempt, else none |
| ProducerHistories.AcceptedAsSent | src/Producer_priv.cpp:162-179 | what the broker accepted is, in the order of queueing and each at most once, what the Sends gave, timestamped as above |
| ProducerHistories.MarkedAsDeclared | src/Producer_priv.cpp:62-84 | on every run, an exchange is to be declared if and only if a DeclareExchange was carried out for it, then with the type of the last one; a Send marks none |
| ProducerHistories.MarkWasGiven | src/Producer_api.cpp:152-157 | and that type is the one given to the call of DeclareExchange |
| ProducerHistories.StoppedMeansFlagClear | src/Producer_api.cpp:97-109 | in every reachable state in which the producer is stopped, or about to start its thread, the flag is clear |
| ProducerHistories.NothingPublishedBeforePass | src/Producer_priv.cpp:36-55 | on every run, after a Start a running producer publishes nothing before a pass over the exchanges has begun, and on the first connection after it that pass began on that connection |
| ProducerTheorems.TimestampOf | src/ConnectionBase.cpp:213-222 | wherever a message is, its timestamp is that with which it was queued, else that of its first connected publish attempt, else none (`ProducerHistories.MessageAsSent` joins it to what the user gave) |
| ProducerTheorems.StampedOnce | src/Producer_priv.cpp:162-178 | that time is set once, by a connected attempt on the front, and no retry changes it |
| ProducerTheorems.ConnectionsNeverOverlap | src/Producer_priv.cpp:38-46 | the publisher connects only while disconnected; every connection but the live one was destroyed exactly once; after the destructor all were |
| ProducerTheorems.PublisherWindsDown | src/Producer_priv.cpp:36-55 | once Stop has cleared the flag every publisher step descends, one is always possible until the thread returns, and no other thread raises what is left but a Send that queues while the queue is being dropped, by one message |
| ProducerTheorems.PublisherDescends | src/Producer_priv.cpp:36-179 | with the flag clear every publisher step lowers a lexicographic measure of what the iteration has left |
| ProducerSafety.InvKept | src/Producer_priv.cpp:36-179 | every step of every thread keeps the conjunction of the producer's invariants |
| Producers.Producer.AddExchange | src/Producer_priv.cpp:86-101 | a new exchange gets the next channel and clears the flag; a known one changes nothing |
| Producers.Producer.AddDeclaredExchange | src/Producer_priv.cpp:62-84 | as above, always marking the exchange for declaration and clearing the flag |
| Producers.Producer.ChannelsArePositive | src/Producer_api.cpp:45-46 | neither overload ever returns a negative channel, so Send never reports invalid parameters |
| Producers.Producer.OpenAndDeclare | src/Producer_priv.cpp:127-153 | one turn of the loop on its copy of the element: the broker is asked to open the copy's channel and, if that succeeded and the copy is marked, to declare the exchange there with the copy's type, and for nothing else; the copy is marked connected exactly after a success and the list stays as it was; only a server failure leaves the loop; a failed declare leaves `allGood` alone |
| Producers.Producer.OpenAll | src/Producer_priv.cpp:126-160 | connectChannels from lock to unlock as a run of the protocol, ending at the close exactly after a server failure; others only append to the queue meanwhile |
| Producers.Producer.ConnectChannels | src/Producer_priv.cpp:121-160 | ends at the publish; if still connected, the queue was only appended to |
| Producers.Producer.PublishSection | src/Producer_priv.cpp:165-171 | there is a front message; it is stamped if it had no time, and published as it then stands; the rest of the queue is untouched |
| Producers.Producer.PopSection | src/Producer_priv.cpp:173-177 | removes exactly the message that was published |
| Producers.Producer.PublishFront | src/Producer_priv.cpp:166-177 | what is published is the front, with its own channel, exchange, key, timestamp and body, or nothing; disconnected exactly after a server failure; otherwise the front is gone if it was sent and stays, stamped, if not, with the rest of the queue intact |
| Producers.Producer.PublishNextInQueue | src/Producer_priv.cpp:162-179 | if still connected, the queue lost at most its front, which was sent; an unsent front stays, at most stamped; everything behind it is as it was, perhaps followed by new messages |
| Producers.Producer.ClearActiveSendQueue | src/Producer_priv.cpp:103-108 | everything queued when it begins leaves the queue, however senders interfere, without a publish and without touching the connection |
| Producers.Producer.Thread | src/Producer_priv.cpp:36-55 | the publisher's loop as a run of the protocol; it never reads or pops an empty queue |
| Producers.Producer.Send | src/Producer_api.cpp:41-66 | always succeeds, and queues last a message with the exchange, routing key, timestamp and body it was given, on its exchange's channel, though it takes the mutex twice |
| Producers.Producer.DeclareExchange | src/Producer_api.cpp:152-157 | always succeeds, and leaves the exchange listed on a channel, marked for declaration with the given type, and the flag clear so that the next pass declares it |
| Producers.Producer.Start | src/Producer_api.cpp:68-86 | the code for each case; it succeeds exactly if the producer is initialized and not running, and then a new thread runs, with the flag clear |
| Producers.Producer.Stop | src/Producer_api.cpp:88-112 | whatever it reports, it ends not running, not connected, with the flag clear, an empty queue, no live buffer and no double free |
| Producers.Producer.Restart | src/Producer_api.cpp:159-165 | the code for each case; starts again exactly if a thread was running, and then with the flag clear |
| Producers.Producer.Safe | src/Producer_priv.cpp:36-179 | every state of the object is reachable in the protocol and satisfies its invariant |
| Locks.NoCircularWait | src/Consumer_priv.cpp:137-156 | with any number of threads making any calls, and callbacks making any calls of a producer, no reachable state has a circular wait through mutexes or joins, and no chain of waits exceeds seven |
| Locks.SomeoneCanStep | src/Consumer_api.cpp:92-112 | every unfinished thread can step or waits, perhaps through others, for one that can |
| Locks.JoinIsUnwanted | src/Consumer_api.cpp:104-106 | a thread in a Stop's join holds no mutex its worker could want, so the worker never waits for it; in the consumer's it holds none and nobody waits for it |
| Locks.LocksExclude | src/Producer_priv.cpp:121-160 | a mutex has one owner, and a finished thread holds none |
| Locks.CallsAreBalanced | src/Producer_api.cpp:41-165 | every API call takes mutexes in rising rank and releases all |
| Locks.WorkersAreBalanced | src/Consumer_priv.cpp:158-175 | so do both worker threads, which never join |
| Locks.CallsTake | src/Consumer_api.cpp:33-139 | exactly which mutexes each API call may take |
| Locks.WorkersTake | src/Producer_priv.cpp:36-55 | the publisher takes the producer's mutexes only; the consumer's worker may, through callbacks, take any |
| Locks.ManualLockReleasedOnce | src/Producer_priv.cpp:126-159 | on every path connectChannels takes the mutex by hand once and releases it once |
| Locks.CountIsRight | src/Producer_priv.cpp:126-159 | the tally of a program is how often the event happens on each of its complete paths |
| QueueNames.CodeSafeIffDeclaresSucceed | src/ConnectionBase.cpp:262-291 | the code as written, destructor included, never frees or uses a bad pointer if and only if no declare ever failed |
| QueueNames.ReturnedErrorSafeIffKnown | src/Consumer_priv.cpp:57-70 | with the inner error returned, if and only if no declare ended in an error the decoder does not know; then every buffer allocated was freed exactly once |
| QueueNames.OneBufferPerChannel | include/ChannelHandler.hpp:228-237 | then, over any retries and reconnects, each channel holds at most one live buffer, each live buffer one channel, and allocated is freed plus held |
| QueueNames.FailedDeclareFaults | src/ConnectionBase.cpp:276-290 | one subscription whose declare ends in a channel exception faults as written, and does not with the error returned |
| QueueNames.DeclareAndName | src/Consumer_priv.cpp:57-70 | declareQueue on the real handler and heap asks for the channel's own properties, and does to names and heap what the model of histories says |
| QueueNames.DestroyHandler | include/ChannelHandler.hpp:110-115 | the handler's destructor after any history of successful declares leaves no live buffer |

## Left out

- The rabbitmq-c calls, sockets, login, TLS and sleeps: foreign I/O; each is an arbitrary answer. The library state of a failed Connect, which the code never destroys, is not counted as a connection.
- Logger: display only. Reading an uninitialised queue name for a log line is not counted as a fault; freeing it is.
- Message and the property cloning in Utils: a payload is a value, and of the properties only the timestamp is kept.
- RemoveChannelProcessor: it has no caller and dereferences a field that is never assigned.
- The multithreaded callback mode: off by default; nothing follows the detached threads.
- Topic wildcards: dispatch is by exact pair, and the broker does the matching.
- Stop of an uninitialised producer, concurrent Start and Stop, Initialize while running: outside the assumed usage.
- Data races as such: fields read without their mutex are read in one step.
- Queue names inside the consumer's protocol, as an argument of bind and consume too: followed in `QueueNames.dfy` only, where the destructor's order in the specification is that of the channels (the class frees in any order) and addresses are never reused.
- Fixed-width counters: channel numbers are unbounded integers; the code's `int` and the protocol's 16 bits never overflow here.
- Consumers.Consumer.Thread: bounded by a number of rounds, since the loop need not end; a run of any length is covered by some number.
- Consumers.Consumer.Subscribe: waiting for a mutex or for the join is bounded by a patience, after which the method reports that it still waits; the same holds for the other API methods of both classes.
- Producers.Producer.ClearActiveSendQueue: senders may interrupt it any finite number of times; a clear that senders keep going for ever is a run of the protocol but not of the method.
- Initialize of both classes: one connection object is closed and kept, where the source replaces it by a new one.
- CloseChannel in the producer's destructor, SetTimeout, SetMultiThreaded, QueueSize: no effect on the modelled state. `Locks.dfy` has the locks of CloseChannel and QueueSize; the other two take one mutex alone.
- RawMessage: a value in a sequence where the source shares a pointer; nobody but the publisher changes one.
- That every message goes out on an open channel: false of the code on a first connection too; see `ProducerTheorems.PublishesOnOpenChannelIff` and the four runs beside it.
- Channels the broker closes without being called: the library sees such a close only at a later call, and the model only in that call's answer.
