# oregano, verified

oregano is a message-passing library on top of Redis: events go through pub/sub channels, requests through lists used as
queues, and responses come back as events on a channel that each transaction interface owns. This project models its four
layers in Dafny and proves what they promise when they are put together.

`dafny verify dfyconfig.toml` verifies the whole project.

## How the model is built

**Step systems.** Where threads or processes interleave, a layer is a state (a datatype), a set of labels, a guard `Enabled`
and an effect `Apply`. One label is one access to shared memory, one Redis command or one atomic call. A run is any sequence
of labels each of which is enabled when its turn comes, so a statement about all runs is a statement about all schedules.
Fields marked as history are never looked at by a guard.

| module | layer |
|---|---|
| `QueueWorker`, `QueueWorkerTheorems` | the connector's queue worker, `listen` and `stop_listening`, start-up and shutdown, competing consumers |
| `QueueConsumer`, `QueueConsumerTheorems`, `LostMessages`, `OvertakenRun` | the queue worker with one handler manager: what becomes of each message, and exactly which messages find no handler |
| `Handshake`, `HandshakeTheorems` | the connector's subscriber worker and the acknowledgement of `subscribe` and `unsubscribe` |
| `Subscriptions`, `SubscriptionSteps`, `SubscriptionTheorems`, `SubscriptionOrder` | managers, reference counts and connector calls as values, and all runs of them |
| `Layers` | managers and broker composed with the connector that carries out their calls |
| `BrokerConsumer` | one connector, its queue worker, and all the managers on its broker: what becomes of each message in a deployment |
| `Promise`, `PromiseTheorems` | the response promise: any number of `await`s against `on_response` |
| `Frames`, `Protocol`, `ProtocolInv`, `ProtocolFrames`, `Protocol*Steps`, `ProtocolTheorems`, `ProtocolPlaces`, `ProtocolFates`, `ProtocolDrain`, `ProtocolDeadlines`, `ProtocolOrder` | the request/response protocol with any number of senders, queues, handlers, interfaces and promises |
| `Transparency`, `TransparencyTheorems` | the protocol with and without the expiry filter, simulating each other |
| `Clock` | the deadline arithmetic |
| `Base64`, `Base64Theorems`, `Json`, `JsonTheorems`, `Wire`, `WireProtocol` | the bytes on the wire, and the protocol over them |

**Objects.** What the source does by updating objects is a class here, and each method is proved against the functions of the
step systems or of `Subscriptions`, so that the theorems about those hold for the objects.

| module | classes |
|---|---|
| `RedisBrokerConnector`, `QueueHalf`, `EventHalf`, `Atomic` | the connector, its worker loops and its two halves, with the Redis lists and channels they work on; the halves share the one running flag and the technical channel |
| `MessageBroker`, `MessageHandlerManager`, `Deployment` | the broker, a manager, and several managers on one broker |
| `ResponsePromises`, `Endpoints` | promise, publisher, subscriber, request handler, request sender, transaction interface |

The layers meet in their assumptions. The protocol takes queues to be FIFO over competing consumers, response streams to be
lossless and in order once a subscription is confirmed, and each request to go to one handler; the first is
`QueueWorkerTheorems.QueueIsFifo`, the second `HandshakeTheorems.EventsAreHandedInOrder`, and
`SubscriptionTheorems.OneHandlerIff` says exactly when the third holds. `Layers` and `BrokerConsumer` join managers, broker and
connector. The protocol takes a codec that decodes what it encodes; that is `Wire.WireIsFaithful`.

## Assumptions

- UUIDs (request ids, response channels, callback ids, technical channels) are fresh; ids and channels are base62.
- There is one clock, which does not run backwards. Times are unbounded integers here, while the source adds the timeout to a
  64-bit nanosecond count (src/implementation/RequestSender.cpp:38): deadlines are taken to fit, so a timeout stays below the
  distance from the clock to 2^63 - 1 nanoseconds, in the year 2262.
- Redis is an abstract machine: LPUSH and RPUSH add at the left and right ends of a list, BRPOP takes from the right end of
  the first non-empty key in argument order, pub/sub is one FIFO reply stream for each connection.
- Interfaces and senders outlive their promises, and a connector is not destroyed during a call on it.
- User callbacks terminate and do not re-enter the library.
- There are fewer than 2^64 managers.

## Findings

- A kept request can be a whole millisecond or more past its deadline when clock and deadline lie on different sides of
  the epoch, because `duration_cast` truncates toward zero; `Clock.KeptLateIff` gives the exact condition.
- A message without a handler need not have been popped during a stop. `OvertakenRun.LostWithoutAStopAtItsPop` is a run from
  the start of a connector: the message is popped while no call is under way, then a `remove_message_handler` call overtakes
  its dispatch. The exact condition holds in every run: a message finds no handler if and only if the last call that changed
  its queue's entry is not an add (`LostMessages.NoHandlerIff`), so one popped outside any stop of its queue is lost if and
  only if a remove of that queue follows the pop and no add follows the remove (`LostMessages.LostAfterPopIff`).
- After a rejected `listen` the rejected manager keeps its handler and its count, so a request can go to two handlers
  (`SubscriptionTheorems.RejectedListenDeliversTwice`). The exact condition is that a manager new to the queue listens while
  another manager that still exists holds the queue (`SecondHandlerIff` for one call, `OneHandlerIff` for whole runs). A
  rejection alone is not it: if the earlier holder has been destroyed, the rejected manager's handler is the only one
  (`RejectedListenDeliversOnce`).
- Destroying an interface does not release what its manager still holds (src/implementation/TransactionInterface.cpp:54-57,
  and a request handler has no destructor that stops listening). A queue it was listening to stays listened to for nobody,
  and every later listen of another manager is rejected (`SubscriptionTheorems.StrandedQueueIsNeverFree`, and
  `DestroyedListenerBlocksQueue` for a run). A channel is live if and only if a message on it reaches a handler or this has
  happened to it (`SubscriptionTheorems.LiveIffDelivered`, `StrandedIffDestroyedHolding`).
- `m_then_applied` is never set, so `then` does not refuse a second call. The second one assigns to a `std::thread` that is still
  joinable (src/implementation/ResponsePromise.cpp:45), and a thread whose await is refused lets the exception out: both end the
  process (`PromiseTheorems.SecondThenEndsTheProcess`, `OvertakenThenEndsTheProcess`). Of all that
  happens to a promise nothing else does (`ThenEndsTheProcessIff`).
- Two responses before a read would unlock an unlocked mutex (`PromiseTheorems.TwoResponsesMisuse`); the promise depends on
  the protocol's at-most-once property, which is proved.
- README.md:106 of the repository says that the whole request frame is base64 encoded. The code sends it as plain JSON with
  an encoded payload (src/implementation/RequestSender.cpp:51), and so does the model (`Wire.RequestIsNotBase64`).

## Model

| member | source | states |
|---|---|---|
| QueueWorker.RunInv | src/implementation/RedisBrokerConnector.cpp:72-90 | In every interleaving of the worker, the updaters, the owner and other clients: lock ownership, keys, flag, tokens, owner and queue contents satisfy one inductive invariant |
| QueueWorkerTheorems.KeysAreNeverEmpty | src/implementation/RedisBrokerConnector.cpp:34-35 | brpop is never called without keys, and the technical channel is always its first key |
| QueueWorkerTheorems.NoLostWakeUp | src/implementation/RedisBrokerConnector.cpp:74-86 | A worker at or blocked in brpop with an outdated snapshot has the flag set and a token waiting, or the updater still holds the lock before its flag or its rpush; with no call in progress the token is the next thing popped |
| QueueWorkerTheorems.NoStalePop | src/implementation/RedisBrokerConnector.cpp:82-88 | A user message is popped only from a subscribed queue, or while the stop_listening call for that very queue is between its change of the list and its token |
| QueueWorkerTheorems.StoppedQueueIsNotPopped | src/implementation/RedisBrokerConnector.cpp:178-184 | Once stop_listening(q) has pushed its token, nothing is popped from q in any continuation in which no listen(q) begins |
| QueueWorkerTheorems.ShutdownCountsDown | src/implementation/RedisBrokerConnector.cpp:102-110 | After m_is_running is cleared every worker step decreases a measure, whatever other threads do, and at most one of them is a brpop |
| QueueWorkerTheorems.ShutdownIsNeverBlocked | src/implementation/RedisBrokerConnector.cpp:108-116 | After both notifications the queue worker always has an enabled step until it exits, and then the join returns |
| QueueWorkerTheorems.QueueIsFifo | src/implementation/RedisBrokerConnector.cpp:164-168 | What all consumers together have popped from a user queue is a prefix of what was sent to it, and the rest is what is queued |
| QueueWorkerTheorems.RemovalKeepsOrder | src/implementation/RedisBrokerConnector.cpp:181 | Removing a queue takes each occurrence out where it stands: what is before it and what is after it stay in their order |
| QueueWorkerTheorems.ServedKeyIff | src/implementation/RedisBrokerConnector.cpp:82 | BRPOP serves exactly the first key in argument order whose list has something, and blocks exactly when all are empty |
| QueueConsumer.RunInv | src/implementation/MessageHandlerManager.cpp:18-77 | Manager entries and connector subscriptions agree but for the queue of a half-done call, and every popped message is accounted for |
| QueueConsumerTheorems.Conservation | src/implementation/RedisBrokerConnector.cpp:82-88 | As multisets, sent = queued + handled + dropped as expired + taken by others + in the worker's hands + without handler because a stop overlapped; no message vanishes otherwise |
| QueueConsumerTheorems.StopOvertakesDispatch | src/implementation/MessageHandlerManager.cpp:112-121 | From every state in which a message is in the worker's hands and its queue can be stopped, a stop that runs to its end makes the dispatch find no handler |
| LostMessages.EntriesAreLastAdds | src/implementation/MessageHandlerManager.cpp:18-77 | In every run the manager holds a queue exactly when the last call that changed its entry was an add |
| LostMessages.NoHandlerIff | src/implementation/MessageHandlerManager.cpp:112-121 | In every run in which a dispatch is enabled the message is lost if and only if the last add or remove of its queue is not an add, and reaches its handler or its expiry test otherwise |
| LostMessages.LostAfterPopIff | src/implementation/MessageHandlerManager.cpp:112-121 | A message popped outside any stop of its queue is lost if and only if a remove of the queue follows the pop and no add of it follows that remove |
| OvertakenRun.PoppedOutsideAnyStop | src/implementation/RedisBrokerConnector.cpp:82-88 | A run from the start, for any queue and message, that ends with the message just popped, its handler in place and no call under way |
| OvertakenRun.LostWithoutAStopAtItsPop | src/implementation/MessageHandlerManager.cpp:112-121 | Such a run continued to the loss of that message: being popped during a stop is not necessary |
| BrokerConsumer.RunsArePartRuns | src/implementation/MessageBroker.cpp:29-37 | Every run of connector and managers together projects to a run of each, ending in the same states |
| BrokerConsumer.PopIsCovered | src/implementation/RedisBrokerConnector.cpp:82-88 | When a message is popped, some existing manager holds its queue, or a stop of the queue is under way, or a manager was destroyed holding it |
| BrokerConsumer.Conservation | src/implementation/MessageBroker.cpp:29-37 | For any number of managers: sent = queued + reached some handler + taken by others + in the worker's hands + without handler, the last only because a stop was under way at the pop, the last handler went away since, or the queue was left behind by a destroyed interface |
| BrokerConsumer.FanOutIsExact | src/implementation/MessageBroker.cpp:34-36 | In every run a dispatched message goes to each subscribed handler once, and to nobody exactly when no existing manager holds its queue |
| QueueConsumerTheorems.EntriesAreSubscribed | src/implementation/MessageHandlerManager.cpp:36-76 | Between calls a queue is in the manager's map exactly when it is in the connector's list |
| QueueConsumerTheorems.ConsumerRunsAreWorkerRuns | src/implementation/RedisBrokerConnector.cpp:72-90 | Every run of the consumer projects to a run of the queue worker, ending in the same connector state |
| Handshake.RunInv | src/implementation/RedisBrokerConnector.cpp:49-57 | In every interleaving: acknowledgement count, server subscriptions, owner and event stream satisfy one inductive invariant |
| HandshakeTheorems.OutstandingIsOneBit | src/implementation/RedisBrokerConnector.cpp:92-99 | After construction acknowledgements in flight plus the flag are one while a call waits and zero otherwise, in particular when the lock is free |
| HandshakeTheorems.NothingThrows | src/implementation/RedisBrokerConnector.cpp:52-54 | None of the three "must be mutexed" exceptions is reachable |
| HandshakeTheorems.ReturnIsConfirmed | src/implementation/RedisBrokerConnector.cpp:136-148 | A subscribe or unsubscribe that returns has been carried out by the server |
| HandshakeTheorems.LiveIsNetOfCalls | src/implementation/RedisBrokerConnector.cpp:136-162 | Between calls the server's subscriptions are the technical channel plus what all calls add up to in lock order |
| HandshakeTheorems.SpinEnds | src/implementation/RedisBrokerConnector.cpp:145-147 | Once the server has answered, the flag is set within a number of worker steps known at that moment, whatever is published meanwhile |
| HandshakeTheorems.AnsweredIsNotBlocked | src/implementation/RedisBrokerConnector.cpp:59-65 | Until then the subscriber worker always has an enabled step |
| HandshakeTheorems.EventsAreHandedInOrder | src/implementation/RedisBrokerConnector.cpp:39-47 | Messages published on a confirmed channel are handed to the callback without loss and in order |
| HandshakeTheorems.ShutdownCountsDown | src/implementation/RedisBrokerConnector.cpp:102-109 | After m_is_running is cleared the subscriber worker's steps count down, with at most one further consume |
| HandshakeTheorems.ShutdownIsNeverBlocked | src/implementation/RedisBrokerConnector.cpp:109-113 | After the notification the subscriber worker is never blocked before its exit, and then the join returns |
| QueueHalf.QueueHalf.constructor | src/implementation/RedisBrokerConnector.cpp:34-37 | The object starts in the step system's initial state, whatever the lists at the server already hold |
| QueueHalf.QueueHalf.Listen | src/implementation/RedisBrokerConnector.cpp:170-176 | Appends the queue and amounts to the five steps of the step system's call |
| QueueHalf.QueueHalf.StopListening | src/implementation/RedisBrokerConnector.cpp:178-184 | Removes the queue from between the queues around it, which stay as they are, and amounts to the five steps of the step system's call |
| QueueHalf.QueueHalf.SendRequest | src/implementation/RedisBrokerConnector.cpp:164-168 | Is the step system's send: LPUSH on the queue |
| QueueHalf.QueueHalf.Turn | src/implementation/RedisBrokerConnector.cpp:74-89 | One turn of the loop is a run of the step system that keeps its invariant; it blocks only when every subscribed queue is empty, and gives the callback exactly what it pops |
| QueueHalf.QueueHalf.Work | src/implementation/RedisBrokerConnector.cpp:72-90 | The loop ends blocked with every queue of its list empty, or exited; what left each queue was given to the callback in that order |
| QueueHalf.QueueHalf.StartUp | src/implementation/RedisBrokerConnector.cpp:95-97 | The nudging loop ends with the worker alive, under one schedule of the worker |
| QueueHalf.QueueHalf.SignalStop | src/implementation/RedisBrokerConnector.cpp:108-110 | Given the one flag cleared by the destructor, flag and token are the two steps of the step system |
| QueueHalf.QueueHalf.Join | src/implementation/RedisBrokerConnector.cpp:114-116 | The worker exits after at most one further delivery |
| QueueHalf.RedisLists.BRPop | src/implementation/RedisBrokerConnector.cpp:82 | Takes the right end of the first key in argument order whose list is not empty, or blocks when all are empty |
| EventHalf.EventHalf.constructor | src/implementation/RedisBrokerConnector.cpp:29-37 | The object starts in the step system's initial state, with the technical channel's subscription asked for |
| EventHalf.EventHalf.WorkerStep | src/implementation/RedisBrokerConnector.cpp:39-65 | Each step of the subscriber thread is an enabled worker step of the step system |
| EventHalf.EventHalf.Call | src/implementation/RedisBrokerConnector.cpp:136-162 | Under a fair schedule of server and worker, subscribe and unsubscribe return with the server's set changed by just that channel, the flag clear, and the invariant kept |
| EventHalf.EventHalf.Spin | src/implementation/RedisBrokerConnector.cpp:145-146 | The busy wait terminates, with the flag set, under a fair schedule of server and worker |
| EventHalf.EventHalf.Work | src/implementation/RedisBrokerConnector.cpp:61-64 | The loop ends blocked with everything accepted handed over, or exited |
| EventHalf.EventHalf.AwaitAlive | src/implementation/RedisBrokerConnector.cpp:92-94 | The nudging loop ends with the subscriber thread alive, under one schedule of server and worker |
| EventHalf.EventHalf.ClearStatus | src/implementation/RedisBrokerConnector.cpp:99 | After construction the flag is clear and just the technical channel is live |
| EventHalf.EventHalf.Join | src/implementation/RedisBrokerConnector.cpp:111-113 | The subscriber thread exits and the join returns |
| RedisBrokerConnector.RedisBrokerConnector.constructor | src/implementation/RedisBrokerConnector.cpp:18-100 | With any lists at the server, construction ends with both invariants, just the technical channel subscribed on both sides, and both threads alive |
| RedisBrokerConnector.RedisBrokerConnector.Subscribe | src/implementation/RedisBrokerConnector.cpp:136-148 | The server's set grows by the channel |
| RedisBrokerConnector.RedisBrokerConnector.Unsubscribe | src/implementation/RedisBrokerConnector.cpp:150-162 | The server's set loses the channel |
| RedisBrokerConnector.RedisBrokerConnector.Listen | src/implementation/RedisBrokerConnector.cpp:170-176 | The list grows by the queue, and both invariants are kept |
| RedisBrokerConnector.RedisBrokerConnector.StopListening | src/implementation/RedisBrokerConnector.cpp:178-184 | The list loses the queue and nothing else, and both invariants are kept |
| RedisBrokerConnector.RedisBrokerConnector.Destroy | src/implementation/RedisBrokerConnector.cpp:102-116 | One store clears the flag both threads read, and the destructor returns with both threads ended |
| MessageBroker.MessageBroker.Subscribe | src/implementation/MessageBroker.cpp:42-50 | The count goes up by one modulo 2^64, and the connector is called exactly when it becomes one |
| SubscriptionSteps.AcquireEffect | src/implementation/MessageBroker.cpp:45-49 | An acquisition adds one to that channel's count and to no other, and opens the channel exactly when its count was zero |
| MessageBroker.MessageBroker.Unsubscribe | src/implementation/MessageBroker.cpp:52-61 | The count goes down by one modulo 2^64; at zero it is erased and the connector is called, and only then |
| MessageBroker.MessageBroker.Listen | src/implementation/MessageBroker.cpp:82-92 | As subscribe for queues, and throws exactly when the queue is already listened to, the increment remaining |
| MessageBroker.MessageBroker.StopListening | src/implementation/MessageBroker.cpp:94-103 | As unsubscribe, for queues |
| MessageBroker.MessageBroker.RegisterEventCallback | src/implementation/MessageBroker.cpp:63-69 | The callback is the last of the list |
| MessageBroker.MessageBroker.RemoveEventCallback | src/implementation/MessageBroker.cpp:71-75 | Just the entries with that id are gone |
| MessageBroker.MessageBroker.RegisterTransactionCallback | src/implementation/MessageBroker.cpp:105-111 | The callback is the last of the list |
| MessageBroker.MessageBroker.RemoveTransactionCallback | src/implementation/MessageBroker.cpp:113-117 | Just the entries with that id are gone |
| MessageHandlerManager.MessageHandlerManager.AddMessageHandler | src/implementation/MessageHandlerManager.cpp:18-46 | Index, broker and outcome after an add, including both exceptions and what they leave behind; a new handler goes to the end of its list |
| MessageHandlerManager.MessageHandlerManager.RemoveMessageHandler | src/implementation/MessageHandlerManager.cpp:48-77 | Index after a remove, and a release exactly when the list became empty |
| MessageHandlerManager.MessageHandlerManager.RemoveMessageHandlerEverywhere | src/implementation/MessageHandlerManager.cpp:79-110 | The erasing walk in any order, and a release for each emptied channel |
| MessageHandlerManager.MessageHandlerManager.OnMessage | src/implementation/MessageHandlerManager.cpp:112-121 | Calls the channel's handlers in the order of its list |
| Deployment.Deployment.Add | src/implementation/MessageHandlerManager.cpp:18-46 | The objects follow the system of values, and the three-layer invariant is kept |
| Deployment.Deployment.Remove | src/implementation/MessageHandlerManager.cpp:48-77 | The objects follow the system of values, and the three-layer invariant is kept |
| Deployment.Deployment.RemoveEverywhere | src/implementation/MessageHandlerManager.cpp:79-110 | The objects follow the system of values, and the three-layer invariant is kept |
| Deployment.Deployment.Attach | src/implementation/TransactionInterface.cpp:33-35 | An interface's construction registers its manager's callback, and the invariant is kept |
| Deployment.Deployment.Detach | src/implementation/TransactionInterface.cpp:54-57 | An interface's destruction removes the callback, whatever its manager still holds, and the invariant is kept |
| Deployment.Deployment.FanOut | src/implementation/MessageBroker.cpp:25-27 | The two nested loops deliver what the specification of the fan-out says |
| Deployment.Deployment.OnMessage | src/implementation/MessageBroker.cpp:21-37 | One message calls each subscribed handler once, no other, in callback then list order, which SubscriptionOrder.ListsAreInAddOrder says is the order of subscription |
| SubscriptionTheorems.ThreeLayersAgree | src/implementation/MessageBroker.cpp:42-61 | In every run, rejected calls included: count = number of managers holding the channel or destroyed holding it, the connector's live set is the set of held channels, its calls are well paired, no size_t wraps |
| SubscriptionTheorems.ReleaseNeverUnderflows | src/implementation/MessageBroker.cpp:94-103 | Every decrement finds a count of at least one |
| SubscriptionTheorems.RepeatChangesNothing | src/implementation/MessageHandlerManager.cpp:25-27 | An add throws as a repeat exactly when the history has left some handler on the transaction channel, and then erasing it from the middle of a run changes nothing of the rest of the run |
| SubscriptionTheorems.RejectedListenLeavesEntry | src/implementation/MessageBroker.cpp:84-91 | A listen is rejected exactly when another manager holds the queue or was destroyed holding it, and leaves entry and increment behind without a connector call |
| SubscriptionTheorems.IndexRefinesHistory | src/implementation/MessageHandlerManager.cpp:18-110 | A handler is in a channel's list exactly when the last action affecting the two was an add |
| SubscriptionTheorems.ListsKeepTheirShape | src/implementation/MessageHandlerManager.cpp:29-34 | Lists are non-empty and duplicate-free, transaction lists have one entry |
| SubscriptionTheorems.DeliveryIsExact | src/implementation/MessageHandlerManager.cpp:112-121 | In every reachable state the fan-out calls exactly the subscribed handlers, each once, in callback then list order |
| SubscriptionOrder.ListsAreInAddOrder | src/implementation/MessageHandlerManager.cpp:29-34 | In every run the handlers of a channel's list stand in the order of the adds that have made them held and have not been undone since |
| SubscriptionOrder.HeldSinceIs | src/implementation/MessageHandlerManager.cpp:18-110 | That add is an add of the handler when it was not held, and it has been held at every moment since |
| SubscriptionOrder.DeliveryFollowsSubscription | src/implementation/MessageHandlerManager.cpp:112-121 | In every run one message calls the handlers in callback then subscription order, read off the history |
| SubscriptionOrder.DropKeepsOrder | src/implementation/MessageHandlerManager.cpp:59-61 | Removing a handler leaves what stands before it and after it in order |
| SubscriptionTheorems.LiveIffDelivered | src/implementation/MessageBroker.cpp:47-49 | A channel is live at the connector exactly when a message on it reaches a handler or a destroyed manager held it to the end |
| SubscriptionTheorems.StrandedIffDestroyedHolding | src/implementation/TransactionInterface.cpp:54-57 | In every run a manager strands a channel exactly when it was destroyed at a moment at which it held it |
| SubscriptionTheorems.StrandedQueueIsNeverFree | src/implementation/MessageBroker.cpp:82-92 | After an interface that listens to a queue is destroyed, in every continuation the connector listens to the queue, and every listen of a manager new to it is rejected |
| SubscriptionTheorems.DestroyedListenerBlocksQueue | src/implementation/TransactionInterface.cpp:54-57 | The run: the queue is live, its messages reach nobody, and the next listen is rejected |
| SubscriptionTheorems.RequestsGoToEveryListener | src/implementation/MessageBroker.cpp:34-36 | A request goes to as many handlers as the broker has counted, less the managers destroyed holding its queue |
| SubscriptionTheorems.ListenAddsOneDelivery | src/implementation/MessageHandlerManager.cpp:18-46 | In every run a listen adds one delivery to the requests on its queue if its manager is new to the queue, and none otherwise, whether or not it is rejected |
| SubscriptionTheorems.SecondHandlerIff | src/implementation/MessageBroker.cpp:82-92 | A step makes the requests on a queue go to a second handler exactly when it is a listen of a manager new to the queue while some existing manager holds it, and such a listen is rejected |
| SubscriptionTheorems.OneHandlerIff | src/implementation/MessageBroker.cpp:87-91 | All along a run a request goes to at most one handler if and only if the run has no such listen |
| SubscriptionTheorems.OneHandlerUnlessRejected | src/implementation/MessageBroker.cpp:87-91 | A sufficient condition: in a run without a rejected listen no queue is counted twice and no request goes to two handlers |
| SubscriptionTheorems.RejectedListenDeliversTwice | src/implementation/MessageHandlerManager.cpp:33-41 | With a rejected listen while the other holder exists, it does: the run |
| SubscriptionTheorems.RejectedListenDeliversOnce | src/implementation/TransactionInterface.cpp:54-57 | With a rejected listen after the other holder is destroyed, it does not: the run |
| SubscriptionTheorems.RemoveEverywhereIsFold | src/implementation/MessageHandlerManager.cpp:79-110 | Removing everywhere, in any walk order, leaves the same managers, counts and live set as removing channel by channel in any order, and each channel that goes down is released once |
| Layers.ServerFollowsManagers | src/implementation/MessageBroker.cpp:42-61 | When the connector has carried out the broker's event calls and is between calls, the server's subscriptions are the technical channel and exactly the channels that some manager holds |
| Layers.ListFollowsManagers | src/implementation/MessageBroker.cpp:82-103 | Likewise the connector's list is the technical channel and exactly the queues that some manager holds, none of them twice |
| SubscriptionSteps.WalkIsRemoves | src/implementation/MessageHandlerManager.cpp:85-109 | Collecting the emptied channels and releasing them afterwards equals removing one by one, call trace included |
| Promise.StepKeepsInv | src/implementation/ResponsePromise.cpp:21-58 | Every step of readers and responder keeps the permit count and the local facts |
| PromiseTheorems.PermitConservation | src/implementation/ResponsePromise.cpp:51-58 | With at most one accepted response: takers plus free permit = releases, and no unlock hits an unlocked mutex |
| PromiseTheorems.AnswersAreTheAcceptedResponse | src/implementation/ResponsePromise.cpp:29-32 | At most one reader is answered, and with the accepted response |
| PromiseTheorems.UnlockMisusesIff | src/implementation/ResponsePromise.cpp:57 | An unlock hits an unlocked mutex exactly when an earlier release has not been taken |
| PromiseTheorems.TwoResponsesMisuse | src/implementation/ResponsePromise.cpp:51-58 | Two responses before a read do that |
| PromiseTheorems.ReleaseIsNotLost | src/implementation/ResponsePromise.cpp:29 | After a release, an await that times out, even one begun after the deadline, has lost the permit to another reader |
| PromiseTheorems.ReleasedPermitIsAvailable | src/implementation/ResponsePromise.cpp:29 | With an untaken release a waiting await can take it and cannot time out, at any time |
| PromiseTheorems.LaterReadsAreRefused | src/implementation/ResponsePromise.cpp:23-25 | After one completed read every later await is refused |
| PromiseTheorems.RefusedIff | src/implementation/ResponsePromise.cpp:23-25 | In every run an await is refused exactly when its test comes after some reader's completed read |
| PromiseTheorems.ThenEndsTheProcessIff | src/implementation/ResponsePromise.cpp:37-49 | In every run the process ends exactly when a second call of then starts a thread, or the thread of a then tests after another read has completed |
| PromiseTheorems.SecondThenEndsTheProcess | src/implementation/ResponsePromise.cpp:42-48 | Two calls of then before any read end the process: the run |
| PromiseTheorems.OvertakenThenEndsTheProcess | src/implementation/ResponsePromise.cpp:45-48 | One then overtaken by an await ends it, too: the run |
| PromiseTheorems.TimeoutIsNotEarly | src/implementation/ResponsePromise.cpp:33-34 | A timeout is never reported before the deadline |
| PromiseTheorems.AcceptedInTime | src/implementation/ResponsePromise.cpp:53-56 | An accepted response arrived no later than the deadline |
| ResponsePromises.ResponsePromise.constructor | src/implementation/ResponsePromise.cpp:5-11 | A promise starts without a permit |
| ResponsePromises.ResponsePromise.Await | src/implementation/ResponsePromise.cpp:21-35 | The call is a run of the promise's steps; its result by cases of earlier read, permit and deadline |
| ResponsePromises.ResponsePromise.Then | src/implementation/ResponsePromise.cpp:37-44 | Refused after a completed read; otherwise one more reader has begun an await, or the process ends if an earlier call has left its thread |
| ResponsePromises.ResponsePromise.RunThen | src/implementation/ResponsePromise.cpp:45-48 | The thread's await is a run of the promise's steps; its callback gets the await's result, and the process ends exactly when the await is refused |
| ResponsePromises.ResponsePromise.OnResponse | src/implementation/ResponsePromise.cpp:51-58 | The call is a run of the promise's steps; late messages change nothing, others are stored and released |
| ProtocolTheorems.RunInv | src/implementation/RequestSender.cpp:31-54 | Every reachable state of the protocol satisfies the inductive invariant |
| ProtocolTheorems.Correlation | src/implementation/RequestHandler.cpp:27-50 | An Answer is what the one callback run for this request returned, for exactly the channel and payload given to send_request |
| ProtocolTheorems.AtMostOnce | src/implementation/TransactionInterface.cpp:37-49 | No id has two callback runs or two on_response calls, and no promise is misused |
| ProtocolTheorems.RegistryIsSafe | src/implementation/TransactionInterface.cpp:44-48 | Every registered id leads to the live promise made for it, and a dispatch inside on_response is inside a live promise |
| ProtocolTheorems.NothingBreaks | src/implementation/RequestHandler.cpp:29-41 | Every frame decodes, and every response is published on a confirmed channel |
| ProtocolTheorems.AlivePromiseIsReachable | src/implementation/TransactionInterface.cpp:63-72 | While a promise lives its id is registered and its channel confirmed |
| ProtocolTheorems.InFlightIsAnswerable | src/implementation/RequestSender.cpp:49-51 | A queued request or a response in flight has a confirmed response channel, and its id is registered there exactly as long as its promise lives |
| ProtocolDeadlines.DeadlineIsTimeoutAfterCreation | src/implementation/RequestSender.cpp:38-47 | In every run the deadline of a request, in its record and in its promise, is the clock's reading at its send_request plus the timeout given to it |
| ProtocolDeadlines.AnswerIsInTime | src/implementation/ResponsePromise.cpp:53-57 | A reader has an Answer only if the response was handed to the promise at a clock of at most send_request's time plus its timeout |
| ProtocolDeadlines.TimeoutIsNotEarly | src/implementation/ResponsePromise.cpp:29-34 | A reader gives up only when the clock shows at least send_request's time plus its timeout |
| ProtocolDeadlines.FilterGoesByTheDeadline | src/implementation/RequestHandler.cpp:31-37 | In every run the filter drops a request exactly when the clock in whole milliseconds is past send_request's time plus its timeout in whole milliseconds |
| ProtocolOrder.RequestsAreFifo | src/implementation/RedisBrokerConnector.cpp:164-168 | In every run of the protocol a queue holds what was sent to it, in order, without as many of the oldest as all workers together have popped |
| ProtocolOrder.PopsInOrder | src/implementation/RedisBrokerConnector.cpp:82-88 | The n-th pop, from whichever worker, is given the n-th request sent |
| ProtocolOrder.ResponsesAreFifo | src/implementation/TransactionInterface.cpp:37-51 | A response stream holds what was published on it, in order, without as many of the oldest as its dispatcher has taken |
| ProtocolOrder.TakesInOrder | src/implementation/TransactionInterface.cpp:37-51 | The n-th response taken is the n-th published |
| ProtocolPlaces.ExactlyOnePlace | src/implementation/RedisBrokerConnector.cpp:82-88 | Every sent id is in exactly one place: one queue position, one worker, one stream position, one dispatcher, or done |
| ProtocolPlaces.UnsentIsNowhere | src/implementation/RequestSender.cpp:49-51 | Before the send an id is nowhere |
| ProtocolFates.NoResponseIsLost | src/implementation/TransactionInterface.cpp:37-51 | No lost response, in any interleaving: take any reachable state, any response in a stream, and any continuation; once the stream's dispatcher has returned often enough to have come to it, the response was handed to on_response or its promise has been destroyed |
| ProtocolFates.FatesAreHonest | src/implementation/TransactionInterface.cpp:44-48 | In every run an unclaimed response belongs to a destroyed promise, and a delivered one has been handed to on_response |
| ProtocolFates.PublishedIsNeverDropped | src/implementation/TransactionInterface.cpp:37-49 | A published response never counts as expired or without handler afterwards |
| ProtocolDrain.DispatcherIsNeverStuck | src/implementation/TransactionInterface.cpp:37-49 | A dispatcher with work has an enabled step |
| ProtocolDrain.DrainOne | src/implementation/ResponsePromise.cpp:51-58 | Handling the head of a stream answers its promise when it is registered and in time, and changes no other |
| ProtocolDrain.DrainDelivers | src/implementation/TransactionInterface.cpp:37-51 | Progress: the schedule in which the subscriber thread runs alone empties the stream and hands over every response in it that is still waited for |
| TransparencyTheorems.UnfilteredIsFiltered | src/implementation/RequestHandler.cpp:31-37 | For every schedule without the filter, leaving out the steps that handle expired requests gives a schedule with it, ending in the same state but for those requests |
| TransparencyTheorems.FilteredIsUnfiltered | src/implementation/RequestHandler.cpp:31-37 | Every run with the filter has a run without it that shows the same promises |
| TransparencyTheorems.FilterIsTransparent | src/implementation/RequestHandler.cpp:31-37 | A promise outcome is reachable with the filter exactly when it is reachable without |
| TransparencyTheorems.ExpiredIsNeverAnswered | src/implementation/ResponsePromise.cpp:53-55 | A request that was found expired is never answered, whether or not it was processed |
| Clock.FilterIsSound | src/implementation/RequestHandler.cpp:32-34 | What the filter drops is past its deadline at full precision |
| Clock.ToMsCountsMillions | src/implementation/RequestSender.cpp:39-40 | A millisecond is a million ticks, and the remainder is cut off on both sides of the epoch |
| Clock.ExpiryIsStable | src/implementation/RequestHandler.cpp:34 | Once expired, always expired |
| Clock.KeptLateIff | src/implementation/RequestSender.cpp:38-40 | A kept request is a millisecond or more late exactly when clock and deadline straddle the epoch within a millisecond of it |
| Clock.KeptIsNearlyOnTime | src/implementation/RequestSender.cpp:38-40 | For deadlines at or after the epoch a kept request is under a millisecond late |
| Clock.KeptCanBeLateAcrossTheEpoch | src/implementation/RequestHandler.cpp:32-34 | Across the epoch it can be later: the input |
| Base64.RoundTrip | src/implementation/Publisher.cpp:22 | Decoding gives back every byte string |
| Base64.EncodedShape | src/implementation/Publisher.cpp:22 | Four symbols for every three bytes begun, all from the alphabet of RFC 4648 |
| Base64.TestVectors | src/implementation/Publisher.cpp:22 | The vectors of section 10 of RFC 4648 |
| Base64Theorems.SymbolIsTable | src/implementation/Publisher.cpp:22 | The n-th symbol is the n-th character of table 1 of RFC 4648 |
| Base64Theorems.ValueIsPlace | src/implementation/Subscriber.cpp:30 | The decoder reads each symbol as its place in the table, and nothing else as a symbol |
| Base64Theorems.EncodeByPosition | src/implementation/Publisher.cpp:22 | The four symbols at 4i, read in base 64 by their places in the table, are the three bytes at 3i, read in base 256; a short last quantum ends in zero bits and padding |
| Base64Theorems.DecodeIff | src/implementation/Subscriber.cpp:30 | The decoder accepts exactly the texts of whole quanta with padding in the last one only, and gives the bytes whose number the symbols are |
| Json.RoundTrip | src/implementation/RequestHandler.cpp:29 | Parsing gives back every value that needs no escape |
| Json.GetAfterSet | src/implementation/RequestSender.cpp:36-41 | Assigning one key changes that key and no other |
| JsonTheorems.DumpIntIsInteger | src/implementation/RequestSender.cpp:51 | A number is printed as its digits, place by place, without a leading zero, and with a minus sign when it is negative |
| JsonTheorems.ParseIff | src/implementation/RequestHandler.cpp:29 | In the fragment of JSON that is modelled, and short of a negative zero, the parser accepts exactly the texts that the printer writes, and reads each as the value it was written from |
| Wire.FramesNeedNoEscape | src/implementation/RequestSender.cpp:35-41 | No frame needs a JSON escape |
| Wire.RequestRoundTrip | src/implementation/RequestHandler.cpp:29-43 | The handler reads back every field that the sender wrote |
| Wire.ResponseRoundTrip | src/implementation/TransactionInterface.cpp:40-47 | The interface reads back what the handler published, through two layers of base64 |
| Wire.ResponseIsBase64 | src/implementation/RequestHandler.cpp:45-49 | A published response is base64 through and through |
| Wire.RequestText | src/implementation/RequestSender.cpp:51 | The request's text, character by character: sorted keys, the deadline in decimal, only the payload encoded |
| Wire.ResponseText | src/implementation/RequestHandler.cpp:45-49 | A published response is the base64 of exactly this text, given character by character |
| Wire.RequestIsNotBase64 | src/implementation/RequestSender.cpp:51 | No base64 decoder accepts a request frame |
| Wire.DecodeRequestIff | src/implementation/RequestHandler.cpp:29-43 | A frame is accepted exactly when it is a JSON object with both header texts, a payload in base64 and, if it has a deadline, a number for it |
| Wire.DecodeResponseIff | src/implementation/TransactionInterface.cpp:40-47 | A response is accepted exactly when it is the base64 of a JSON object with an id and a payload in base64 |
| Wire.WireIsFaithful | src/implementation/Subscriber.cpp:28-31 | The library's wire format meets what the protocol asks of a codec |
| WireProtocol.WireCorrelation | src/implementation/RequestSender.cpp:31-54 | Correlation over the actual bytes: one callback run, and every callback run for the id returned the answer |
| WireProtocol.WireAtMostOnce | src/implementation/ResponsePromise.cpp:51-58 | At most once over the actual bytes |
| Endpoints.Publisher.Publish | src/implementation/Publisher.cpp:20-23 | Publishes the encoded message |
| Endpoints.Subscriber.OnMessage | src/implementation/Subscriber.cpp:28-31 | The callback gets the decoded message, or the call fails exactly when it does not decode |
| Endpoints.PublishAndReceive | src/implementation/Subscriber.cpp:28-31 | A subscriber gets the very bytes that were published |
| Endpoints.RequestHandler.OnMessage | src/implementation/RequestHandler.cpp:27-50 | By cases of the decoded frame: nothing for malformed or expired requests, else exactly one response with the callback's result for the request's id and channel |
| Endpoints.TransactionInterface.OnResponseMessage | src/implementation/TransactionInterface.cpp:37-49 | Just the promise registered under the response's id gets the payload, nothing else changes |
| Endpoints.TransactionInterface.Register | src/implementation/TransactionInterface.cpp:63-67 | The id leads to the promise |
| Endpoints.TransactionInterface.Unregister | src/implementation/TransactionInterface.cpp:68-72 | The id is gone |
| Endpoints.RequestSender.SendRequest | src/implementation/RequestSender.cpp:31-54 | A fresh promise with the deadline, registered first, then one request frame with the deadline in milliseconds |
| Endpoints.RoundTrip | src/implementation/RequestHandler.cpp:27-50 | One request through sender, handler, interface and promise: the callback's result for the bytes sent if the response is in time, and a timeout otherwise |

## Left out

- Redis sockets, redis-plus-plus, connection errors and reconnects: only the abstract machine above.
- Deadlock freedom on the event side: a manager's lock is held across the spin of `subscribe`, and the subscriber thread may
  need that lock; the handshake is proved safe and the spin is shown to end under the assumption that callbacks return.
- ThenAlreadyAppliedException: `m_then_applied` is read but never set (src/implementation/ResponsePromise.cpp:26), so nothing throws it.
- What a process does after std::terminate: the model records the end of the process and lets the other steps go on, so its runs include all those of the source and more. Calls of `then` on one promise are taken not to overlap each other, because they assign to `m_then_thread` without a lock.
- ResponsePromises.ResponsePromise.Await: does not block; it is given the time at which `try_lock_until` returns, and the interleavings are those of the Promise module.
- EventHalf.EventHalf.Call: runs the other threads' steps inside the spin, one fair schedule of many; all schedules are those of the Handshake module.
- EventHalf.EventHalf.Spin: as for Call.
- EventHalf.EventHalf.AwaitAlive: runs the server and the subscriber thread between its nudges, one schedule of many; all schedules are those of the Handshake module.
- QueueHalf.QueueHalf.StartUp: runs the queue worker between its nudges, one schedule of many; all schedules are those of the QueueWorker module.
- BrokerConsumer: a manager's change of its map and the broker's change of its count are one step here, as is the fan-out over the managers; the connector's part of each call is not. QueueConsumer splits the manager's and the connector's part for one manager.
- Json.Dump: strings that need an escape, white space, the other JSON types and repeated keys do not occur in the frames and are not modelled.
- Base64.Decode: ignores the unused bits of a padded quantum, as a lenient decoder does; cppcodec is not part of this model.
- C++ mutex ownership: `m_timeout_mutex` is a binary semaphore without spurious failure; an unlock of an unlocked mutex is recorded as misuse.
- RequestHandler::listen and stop_listening, Subscriber::subscribe, unsubscribe and its destructor: they forward to the manager, whose calls are modelled.
- Subscribers that outlive their interface: their destructors would call a manager that no longer exists (src/implementation/Subscriber.cpp:20); no call is made on a destroyed manager here.
- The invalid `Type{42}` of the unit tests.
- Broker configuration, factory, wrapper, EventInterface, examples and build files: getters, construction and forwarding.
- The final unsubscribe of the destructor (src/implementation/RedisBrokerConnector.cpp:117): nobody consumes its replies.
