# A verified model of the messaging client

The repository is a small messaging client for Node.js. Its hard part is a protocol made of timers, promises, a send
queue and listener tables. This project models that part in Dafny and proves what it guarantees over every run.

One step of a model is one JavaScript macrotask together with the microtasks it drains. Each model has a `Step` that is
total (an event that cannot happen in a state changes nothing) and a `Run` over a sequence of events, so that a lemma
about `Run(INIT, es)` for every `es` is a statement about every reachable state and every interleaving.

| module | what it holds |
|---|---|
| `TransportModel` | states and steps of the WebSocket transport and its one-worker send queues, with a history of what was accepted, handed to the socket, sent, failed, refused, flushed and called back |
| `TransportBalance` | conservation of messages and callbacks, also when queues overlap |
| `TransportOutcome` | what a caller of `sendMessages` may conclude; the drain timer; the bounded wait for the socket |
| `TransportOrder` | order within one queue lifetime, and what a put-back from another queue does to it |
| `TransportQuiescence` | coming to rest after a close; the looks of a task against the wait; a run in which queues overlap |
| `TransportDelivery` | what waits goes out once the socket opens |
| `TransportReach`, `TransportHandOver` | exactly which accepted messages can still reach the socket |
| `TransportStranded` | open connections whose queue stands still |
| `TransportSteps` | what each event of the transport does to every field of its state, without the model's helper functions |
| `TransportRetries`, `TransportFlush` | how often a message is looked at before it is given up; what a disconnect takes with it |
| `WsTransport` | the queue and the transport as classes; each method is one step of `TransportModel` |
| `EventEmitter` | the listener table and the class around it |
| `UmsModel`, `UmsProofs`, `UmsRuns` | requests, responses, notifications and the timers that are never cancelled; their invariants; counterexample runs of the whole lifecycle |
| `UmsMessages` | which request a response resolves, which listeners a notification reaches, why and when a request is rejected |
| `LifecycleModel`, `LifecycleProofs`, `LifecycleOutcomes` | start, stop and refresh of the four client classes; what each of them leaves for every outcome of its awaits |
| `UmsClient` | the client as one class; each method is one step of `LifecycleModel` and keeps its invariant |
| `EndToEnd`, `EndToEndFailures` | client with its lifecycle, transport and wire together; which requests the transport's failures settle |
| `EndToEndReuse`, `EndToEndMisleads`, `EndToEndRuns` | exactly when an id may be used again, both halves, and a run that uses one too early |
| `EndToEndRestart` | exactly when a completed start can send, and a restart that leaves a complete, connected client mute |
| `CsdsResolver`, `CachingResolver` | request URL, directory and cache key; the memoised resolver against the uncached one |
| `UuidGenerator`, `UuidDigits` | the version 4 UUID generator; the value of every digit |

What is assumed of the libraries:

- The queue has one worker and does what is documented of push, unshift, pause, resume, kill and the drain callback
  (`WsTransport.AsyncQueue`).
- The state machine changes its state before the hook runs, refuses a transition while another is pending, and after a
  failing hook stays in the new state with nothing pending.
- The memoising library uses an entry for less than `maxAge` after the call that made it and drops the entry of a failed call.
  Whether a late failure also drops a newer entry of the same key is left open (an event of the model chooses).
- Error messages are not empty: the program calls back with the message of a failed `ws.send`
  (packages/transport-ws/src/transport.ts:263), and an empty one would count as success. `TransportOutcome.ResolvedMeansSent`
  depends on this.
- Time does not pass over a client timer that is due (`UmsModel.MayAdvance`).
- The two emitters of a client are its own and start empty.
- A transport is an object of its own: others may connect and disconnect it, so its connects and disconnects are not tied to the
  starts and stops of the client. `EndToEndMisleads.UnspentMisleads` uses this: it may disconnect without a flush and connect again
  while the client stays started, which the client itself never does.

Some properties one would expect are false of the code. For each there is a run that shows it and a lemma that says when the code
does meet the property, by an if-and-only-if:

- A timer may remove a listener that it does not own although its own request was not orphaned by a stop
  (`UmsRuns.TheftWithoutStop`); exactly when it does is in `UmsProofs.ForeignRemoval`. What a caller can check when it sends is
  in `UmsProofs.CanBeTakenIff`: the listener of the new request can be taken later if and only if an earlier request with the id is
  unsettled now.
- Equal cache keys may belong to different requests (`CsdsResolver.CollisionExists`); exactly when is in `CsdsResolver.KeyCollision`.
- A request with a used id may resolve although its message was never handed over (`EndToEndRuns.ReusedIdMisleads`). An id is safe
  to use, once its earlier requests are settled, if and only if it is spent: every accepted message with it was dropped or waits in a
  queue that cannot run any more (`EndToEndMisleads.ReuseSafeIff`).
- A caller of `sendMessages` may never be told what became of a message: a flush drops it with its callback
  (`TransportFlush.FlushedForGood`). A callback is lost exactly with a flush of its message (`TransportBalance.CallbackAccounting`).
- A message kept in a queue may never go out, even on an open connection (`TransportStranded.LateCloseStrandsQueue`). It can go if
  and only if it was not dropped and its queue is not stuck (`TransportHandOver.HandOverIff`, and without connect or disconnect
  `TransportHandOver.NextGoesIff`); the close of another socket makes a queue stuck exactly as `TransportStranded.LateCloseSticks` says.
- A `connect` may leave the transport without a queue; it does if and only if it was connected
  (`TransportQuiescence.ConnectKeepsQueueIff`).
- A start may leave a started client without domains or session (`LifecycleProofs.FailedLoginLeavesStarted`); exactly what every
  start leaves is in `LifecycleProofs.StartOutcome`.
- A connected client that is restarted after a failed logout ends complete and connected and yet rejects every request
  (`EndToEndRestart.RestartIsMute`): its transport is still connected when the start connects it. A start that succeeds leaves a client
  that can send if and only if the transport was not connected then (`EndToEndRestart.StartSendsIff`).
- Two uncached calls with one key may come too close (`CachingResolver.LateFailureDropsNewer`). The next call after a miss is made if
  and only if `maxAge` has passed, or the call has failed, or another call with the key has failed and took the newer entry along
  (`CachingResolver.NextCallIff`); what follows for any two calls is `CachingResolver.CallsAreSpaced`.
- With a negative number of retries a message is put back without a look at the socket, otherwise never
  (`TransportDelivery.HandedIfRetries`).

Messages may also be sent out of order when a queue outlives its connection (`TransportQuiescence.OverlapBreaksOrder`). Here a quiet
beginning is a sufficient condition for order over the whole lifetime (`TransportOrder.LifetimeOrder`), not a necessary one; for a single
put-back from another queue `TransportOrder.PutBackKeepsOrderIff` says exactly whether it keeps the order.

Where code and documentation disagree the code is followed. The comment at packages/transport-ws/src/transport.ts:73 says that
a new message resets the drain timeout; `sendWithCb` does not touch it. The comments at packages/csds-client/src/client.ts:77-79
and packages/le-client/src/client.ts:19-21 say that a started client always has its domains and its session; a start that fails leaves
a started client without one or both (`LifecycleProofs.StartOutcome`), and no refresh brings a session back
(`LifecycleProofs.NoSessionUntilStop`).

## Model

| member | source | states |
|---|---|---|
| TransportBalance.Conservation | packages/transport-ws/src/transport.ts:158-271 | After any run, overlapping queues included, every accepted message is in exactly one place: sent, failed in `ws.send`, refused, flushed, running or waiting in some queue; nothing else is anywhere. |
| TransportBalance.HandedAtMostOnce | packages/transport-ws/src/transport.ts:239-271 | No accepted message is given to `ws.send` twice; a sent one was given once; one that waits or polls in any queue was never given. |
| TransportBalance.CallbackAccounting | packages/transport-ws/src/transport.ts:207-271 | The callback of each accepted message runs at most once over any run: it has run, is lost in a flush, or is still carried by exactly one task. |
| TransportBalance.StepBalanced | packages/transport-ws/src/transport.ts:66-312 | Every step of the transport keeps the three balances: places, callbacks, and outcomes of `ws.send` calls. |
| TransportOutcome.ResolvedMeansSent | packages/transport-ws/src/transport.ts:137-143 | A resolved batch promise means that a message of this batch was handed over unchanged, exactly once, and sent; for a batch of one message, this message. |
| TransportOutcome.SettledForGood | packages/transport-ws/src/transport.ts:137-139 | The promise settled by the first callback of its batch never changes in any later run. |
| TransportOutcome.DrainTimerDiscipline | packages/transport-ws/src/transport.ts:273-287 | In every reachable state at most one drain timer is live, and the stored handle names it. |
| TransportOutcome.DisconnectClears | packages/transport-ws/src/transport.ts:158-174 | After the synchronous part of any disconnect, asked for, by timer, or by a `connect` while connected, no drain timer is live although the flush arms one first, and socket, queue and configuration are gone. |
| TransportOutcome.DrainArms | packages/transport-ws/src/transport.ts:273-287 | In every reachable state the last task of a queue to end, sent or failed, clears a running drain timer and starts a new one exactly if the strategy is not to leave the connection open. |
| TransportOutcome.BoundedWait | packages/transport-ws/src/transport.ts:354-374 | For every readiness history the wait succeeds after n sleeps exactly if the first open look is the n-th and n is at most maxRetries, and fails exactly if none is, after maxRetries + 1 sleeps. |
| TransportOutcome.StepValid | packages/transport-ws/src/transport.ts:66-312 | Every step keeps the references, the drain timer discipline, the identity of messages with what was accepted, and that only a sent message yields a successful callback. |
| TransportRetries.RetriesAsConfigured | packages/transport-ws/src/transport.ts:354-374 | In every reachable state, a message taken while the socket is not open sleeps through exactly as many polls as `maxRetries` of the configuration says (ten without one); while retries are left an open socket gets it at the next poll, and the poll after the last retry gives it up. |
| TransportRetries.GivenUpAfterRetries | packages/transport-ws/src/transport.ts:239-271 | From a connect with `conf` on: after `conf.maxRetries` polls that found the socket not open, the next one ends the task, tells its caller of the failure and puts the message in front of the queue, or refuses it without one. |
| TransportRetries.RetriesOf | packages/transport-ws/src/transport.ts:66-85 | The number of retries is the configured one from a connect to the next connect or disconnect; it is ten behind a connect that had to disconnect first, which drops the configuration. |
| TransportFlush.DisconnectFlushes | packages/transport-ws/src/transport.ts:158-174 | In every reachable state a disconnect with flush, asked for or by the drain timer, moves exactly the waiting messages of the current queue, in order, to the flushed ones and runs no callback; without flush, queues and history stay as they are. |
| TransportFlush.FlushedForGood | packages/transport-ws/src/transport.ts:160-164 | In every later run a flushed message is never handed to the socket and no callback runs for it, whatever is connected again. |
| TransportSteps.SendIs | packages/transport-ws/src/transport.ts:207-217 | Without a queue the batch is rejected at once; otherwise each message becomes, in order, the next ticket at the end of the queue with the callback of its batch, and an empty batch on an idle queue rearms the drain timer. |
| TransportSteps.SocketEventsAre | packages/transport-ws/src/transport.ts:289-312 | The open event of any socket resumes the queue of now, close and error pause it, and nothing else changes but the state of that socket. |
| TransportQuiescence.LooksDecide | packages/transport-ws/src/transport.ts:239-271 | For any run: after n looks that found the socket not open the next poll hands the task over, gives it up (put back or refused) or sleeps again, exactly as the wait over the whole readiness history succeeds after n sleeps, fails after n, or sleeps more. |
| TransportQuiescence.TaskFollowsWait | packages/transport-ws/src/transport.ts:354-374 | In any run, a sleeping task is moved only by its own polls and counts down by one with each look that does not find its socket open; the look that ends the wait is in `LooksDecide`. |
| TransportOrder.LifetimeOrder | packages/transport-ws/src/transport.ts:207-271 | In every state of a queue lifetime begun on a quiet transport, the accepted messages without the dropped and flushed ones are, as a sequence, those sent, the running one, those waiting; through put-backs, pauses, resumes, flushes. |
| TransportOrder.StepInLine | packages/transport-ws/src/transport.ts:137-312 | Every step except `connect` keeps this line, with the worker's task in place. |
| TransportQuiescence.QuiescenceAfterClose | packages/transport-ws/src/transport.ts:239-312 | After the only socket has closed, without disconnect or connect, the queue stays paused, needs at most maxRetries + 1 further polls or one send completion, and then has nothing in flight and waits in acceptance order. |
| TransportQuiescence.OverlapBreaksOrder | packages/transport-ws/src/transport.ts:76-76 | A run in which a task of an older queue is put back into a newer one, so that the message accepted first is sent last. |
| TransportOrder.PutBackKeepsOrderIff | packages/transport-ws/src/transport.ts:247-255 | A put-back from another queue keeps the line of the current queue in the order of acceptance if and only if the message is younger than all it has sent or runs and older than all that waits in it. |
| TransportQuiescence.ConnectKeepsQueueIff | packages/transport-ws/src/transport.ts:76-85 | A `connect` that gets past its endpoint leaves the transport with a queue, and the next message accepted, if and only if it was not connected. |
| TransportQuiescence.ReconnectLosesQueue | packages/transport-ws/src/transport.ts:76-85 | After a `connect` while connected, in every run up to the next `connect`, the transport has no queue and rejects every send at once. |
| TransportReach.StuckStep | packages/transport-ws/src/transport.ts:219-231 | A queue that is paused and that the transport has let go of, or for which no socket is opening, stays so over every step, connects and disconnects included. |
| TransportHandOver.HandOverIff | packages/transport-ws/src/transport.ts:158-312 | In every reachable state, with any number of queues and sockets, an accepted message was or can still be handed to the socket if and only if it was not dropped and does not wait in a stuck queue. |
| TransportHandOver.NextGoesIff | packages/transport-ws/src/transport.ts:239-312 | In every reachable state a connected transport with an idle worker can hand over its next message without connect or disconnect if and only if its queue is not stuck; where nothing is opening, if and only if it is not paused. |
| TransportStranded.LateCloseSticks | packages/transport-ws/src/transport.ts:108-111 | The close of any socket but its own pauses the queue of an open connection, and makes it stuck if and only if no other socket is opening and no connect is suspended. |
| TransportStranded.StrandedRun | packages/transport-ws/src/transport.ts:298-304 | For any queues and sockets: a stuck queue with an idle worker and no work elsewhere hands over nothing in any run without disconnect or connect. |
| TransportStranded.LateCloseStrandsQueue | packages/transport-ws/src/transport.ts:108-111 | A run after which this is the case on an open connection. |
| TransportDelivery.OpenDelivers | packages/transport-ws/src/transport.ts:239-296 | When the transport's socket opens, all that waits in an idle queue, kept messages included, can be handed over and sent in order, each once, with a success for every caller not yet told. |
| WsTransport.Transport.Guarantees | packages/transport-ws/src/transport.ts:137-287 | For every transport object at any time: each accepted message is in one place, its callback ran at most once, it was handed over at most once, and at most one drain timer is live, the one of the handle. |
| WsTransport.AsyncQueue.Push | packages/transport-ws/src/transport.ts:215-215 | Adds one task per message at the end, in order, with consecutive tickets and the same callback. |
| WsTransport.AsyncQueue.Kill | packages/transport-ws/src/transport.ts:163-163 | Removes all waiting tasks, which are returned, and the drain callback. |
| WsTransport.Transport.constructor | packages/transport-ws/src/transport.ts:66-69 | A new transport is in the initial state: no socket, queue, configuration or timer. |
| WsTransport.Transport.Connect | packages/transport-ws/src/transport.ts:66-95 | The whole new state of `connect`: a new queue first, then an open connection is disconnected, taking the new queue with it, or a socket is made; if the endpoint throws only the configuration is set. |
| WsTransport.Transport.ConnectResumed | packages/transport-ws/src/transport.ts:84-95 | The rest of a suspended `connect`: a new socket without a new queue, or nothing if the disconnect failed. |
| WsTransport.Transport.SendMessages | packages/transport-ws/src/transport.ts:137-143 | The batch is queued behind all that waits and recorded as accepted, or its callback runs with an error at once when there is no queue. |
| WsTransport.Transport.Disconnect | packages/transport-ws/src/transport.ts:158-196 | The whole new state of the synchronous part of `disconnect`, flushing only a non-empty queue and closing only a socket that is not closed. |
| WsTransport.Transport.Process | packages/transport-ws/src/transport.ts:239-271 | One task is taken from the front and refused, put to sleep, put back or handed over, as the socket and the configuration say. |
| WsTransport.Transport.PollTimer | packages/transport-ws/src/transport.ts:354-373 | One further look at the socket captured when the task began, with the message handed to the socket of now. |
| WsTransport.Transport.SendCallback | packages/transport-ws/src/transport.ts:260-266 | The outcome of `ws.send` is recorded, the callback runs, a failed message is dropped, and an idle queue drains. |
| WsTransport.Transport.DrainTimerFired | packages/transport-ws/src/transport.ts:279-285 | The drain timer disconnects with a flush. |
| WsTransport.Transport.OnConnected | packages/transport-ws/src/transport.ts:289-296 | The open event resumes the queue of now, whichever socket it came from. |
| WsTransport.Transport.OnClosed | packages/transport-ws/src/transport.ts:298-304 | The close event pauses the queue of now, whichever socket it came from. |
| WsTransport.Transport.OnError | packages/transport-ws/src/transport.ts:306-312 | The error event pauses the queue of now. |
| EventEmitter.TypedEventEmitter.On | packages/util-types/src/event_emitter.ts:11-13 | One lasting registration at the end of the event's list, nothing else changed. |
| EventEmitter.TypedEventEmitter.Once | packages/util-types/src/event_emitter.ts:14-16 | One once-registration at the end of the event's list, nothing else changed. |
| EventEmitter.TypedEventEmitter.PrependListener | packages/util-types/src/event_emitter.ts:32-37 | One registration, lasting or once, at the front of the event's list. |
| EventEmitter.TypedEventEmitter.RemoveListener | packages/util-types/src/event_emitter.ts:17-19 | Removes the registration of the function that was added last, and only this one. |
| EventEmitter.TypedEventEmitter.RemoveAllListeners | packages/util-types/src/event_emitter.ts:20-22 | No listener of the event is left, the others are untouched. |
| EventEmitter.TypedEventEmitter.EmitEvent | packages/util-types/src/event_emitter.ts:26-28 | Calls exactly the listeners registered at the time of the call, in order, and leaves the lasting ones; throws and changes nothing for an unheard "error". |
| EventEmitter.TypedEventEmitter.ListenerCount | packages/util-types/src/event_emitter.ts:29-31 | The number of listeners of the event, 0 for an unknown one. |
| EventEmitter.WithoutLastIs | packages/util-types/src/event_emitter.ts:17-19 | Removing a function takes out its last registration and keeps all before and behind it in order, or changes nothing if there is none. |
| EventEmitter.PersistingOnly | packages/util-types/src/event_emitter.ts:14-28 | After an emit exactly the lasting listeners are left, so each once-listener is called by at most one emit, and a second emit removes nothing more. |
| UmsMessages.ResponseResolves | packages/ums-client/src/client.ts:61-90 | In every reachable state of a client that has completed a start, a message with the id of a listening request resolves this request, and no other, with this message, whatever its type and body. |
| UmsMessages.NotificationReaches | packages/ums-client/src/client.ts:61-70 | In every reachable state a notification changes nothing but the deliveries, of which there is one for each listener of its type and completed start; "error" throws if nobody listens. |
| UmsMessages.DeliveredInOrder | packages/ums-client/src/client.ts:45-48 | Delivery by delivery: in each round the listeners of the type get the notification in the order of registration. |
| UmsMessages.OthersAreIgnored | packages/ums-client/src/client.ts:62-68 | A null message, and one with neither id nor type (or an empty one), changes nothing. |
| UmsMessages.SendIs | packages/ums-client/src/client.ts:25-43 | In every reachable state: which of the three reasons rejects a request at once, or that it listens alone for its id and is due one timeout later; nothing else changes. |
| UmsMessages.FailureIs | packages/ums-client/src/client.ts:35-42 | A late failure and a due timer settle an unsettled request, each with its own reason, and remove all listeners of its id; a settled one stays as it is. |
| UmsMessages.NotBeforeItsTime | packages/ums-client/src/client.ts:102-105 | In every run in which less than the timeout has passed since a request was sent, it is not rejected by its timer. |
| UmsMessages.SentAndAnswered | packages/ums-client/src/client.ts:91-99 | A request of a started client that still listens, after any run, resolves with the answer to its id; and it has not timed out before the timeout has passed. |
| UmsProofs.SessionRefinement | packages/ums-client/src/client.ts:33-56 | From any reachable state without orphans up to the next clean-up, the listener table is exactly the map from id to the one unsettled request with that id, and the number of ids is the number of unsettled requests. |
| UmsProofs.SendOutcome | packages/ums-client/src/client.ts:25-43 | A request waits exactly if no other with its id listens, the client is started and the transport takes the message; one that fails at once leaves the listener table as it was. |
| UmsProofs.NewOrphan | packages/ums-client/src/client.ts:36-42 | A request loses its listener without being settled only to the clean-up of a stop, or to the failure of another request with its id that has none itself. |
| UmsProofs.ForeignRemoval | packages/ums-client/src/client.ts:35-42 | In every reachable state a timer or a late failure removes a listener that is not its own if and only if its own request is unsettled without listener while another with its id is registered; and then a stop has orphaned a request with that id. |
| UmsProofs.NoReuseNoTheft | packages/ums-client/src/client.ts:26-33 | In every run that never sends the id of a request orphaned by a stop again, no timer or failure takes the listener of another request. |
| UmsProofs.CanBeTakenIff | packages/ums-client/src/client.ts:26-42 | In every reachable state of a started client, for an id without listener: some continuation lets another request take the listener of a request sent now with this id if and only if an earlier request with this id is unsettled now. |
| UmsProofs.BoundedSettlement | packages/ums-client/src/client.ts:35-43 | Once the clock has passed the timeout every request there was is settled, sent while started or stopped, orphaned or not, and its outcome never changes. |
| UmsProofs.TimerPending | packages/ums-client/src/client.ts:102-105 | In every reachable state each unsettled request has a live timer due within the timeout. |
| UmsProofs.ClockSettlesAll | packages/ums-client/src/client.ts:102-105 | From every reachable state there is a run of clock and timers alone, no longer than the timeout, that settles every request. |
| UmsProofs.ResponseHandledOnce | packages/ums-client/src/client.ts:61-70 | A response settles the registered request with its id, and k subscriptions give the same table and settlements as one; they differ only by an exception for the id "error". |
| UmsProofs.NotificationOncePerSubscription | packages/ums-client/src/client.ts:61-70 | A notification reaches each of its listeners, in order, exactly once per subscription, and changes no table, request or promise. |
| UmsProofs.ResponseNeedsSubscription | packages/ums-client/src/client.ts:61-70 | In every reachable state a response to a registered request resolves it exactly if a start has completed before. |
| UmsProofs.StepInv | packages/ums-client/src/client.ts:25-105 | Every step keeps: at most one listener per id, owned by an unsettled request with that id; a live timer for each unsettled request; every orphan explained by a stop. |
| UmsRuns.StopOrphanTakesListener | packages/ums-client/src/client.ts:75-80 | A run of the whole lifecycle: start, send, stop, start and send with the same id; the first request's timer takes the second one's listener, and its response then resolves nothing. |
| UmsRuns.TheftWithoutStop | packages/ums-client/src/client.ts:36-42 | A run of the whole lifecycle in which the timer of a request that no stop orphaned takes a listener it does not own. |
| LifecycleProofs.OneRefreshActivity | packages/csds-client/src/client.ts:90-125 | In every reachable state live refresh timers and ticks still awaiting number at most one, none while stopped, and the handle names the live timer. |
| LifecycleProofs.PresentWhileUp | packages/le-client/src/client.ts:36-39 | From a successful start on, in every state up to the next stop, the client has its domains, its session and a subscription, through failed refreshes and lost connections. |
| LifecycleProofs.GoneAfterStop | packages/ums-client/src/client.ts:75-80 | From a successful stop on, until the next start, there are no domains, session, refresh timer, connection or listeners, whatever else happens. |
| LifecycleProofs.NoWriteBack | packages/csds-client/src/client.ts:98-109 | From the beginning of a stop on, whether it succeeds or not, no refresh begun earlier writes the domains back before the next start. |
| LifecycleProofs.FailedTickEndsRefreshing | packages/csds-client/src/client.ts:115-125 | One failed periodic refresh ends periodic refreshing until the next start; manual refreshes do not bring it back. |
| LifecycleProofs.RefreshKeepsGoing | packages/csds-client/src/client.ts:90-125 | Once a start has got past its refresh, even if it fails later, there is exactly one refresh activity in every state up to the next stop, as long as no periodic refresh fails. |
| LifecycleProofs.StartOutcome | packages/le-client/src/client.ts:36-39 | What any start leaves, for every outcome of every await, with or without a session kept by a failed logout: started and idle always; domains, session, refresh activity, completeness and the new handler exactly as the awaits succeeded; a socket if this start made one, or if an earlier one is left, which a `connect` that fails may have dropped. |
| LifecycleOutcomes.ResolvedStores | packages/csds-client/src/client.ts:107-109 | In every reachable state the directory that a start or a refresh resolves, manual or periodic, with session or without, replaces the old one; a failed resolution leaves it. |
| LifecycleOutcomes.RefreshOutcome | packages/csds-client/src/client.ts:61-64 | A manual refresh renews the directory if it was resolved, also if the session is not refreshed afterwards, and changes nothing else. |
| LifecycleOutcomes.TickOutcome | packages/csds-client/src/client.ts:115-125 | What any periodic refresh leaves: the resolved directory, and one new refresh timer exactly if directory and session were refreshed; nothing else changes. |
| LifecycleOutcomes.BusyTick | packages/csds-client/src/client.ts:115-125 | A tick while another transition is pending refreshes nothing and makes the next timer. |
| LifecycleOutcomes.StopOutcome | packages/le-client/src/client.ts:44-48 | What any stop leaves, for every outcome of logout and disconnect: stopped, without domains and timer always; session and connection gone unless the logout failed; tables emptied exactly if the disconnect succeeded too. |
| LifecycleProofs.NoSessionUntilStop | packages/le-client/src/client.ts:53-56 | A started client without session gets none in any run up to the next stop, whatever is refreshed. |
| LifecycleProofs.RefreshSucceeds | packages/le-client/src/client.ts:53-56 | A manual refresh of a complete client ends only behind the session's refresh, and changes the directory and nothing else. |
| LifecycleProofs.SubscriptionsAreStarts | packages/ums-client/src/client.ts:61-70 | Over any run the number of subscribed message handlers grows by exactly the number of starts that complete. |
| LifecycleProofs.NotificationPerStart | packages/ums-client/src/client.ts:61-70 | In every reachable state of the lifecycle a notification reaches each of its listeners exactly as often as starts have completed. |
| LifecycleProofs.FailedLoginLeavesStarted | packages/le-client/src/client.ts:36-39 | A start whose login fails leaves the client started without session, refreshing, and only to be stopped. |
| LifecycleProofs.StepInv | packages/csds-client/src/client.ts:90-125 | Every lifecycle step keeps the refresh discipline, the clean stopped state, the complete started state and the request invariants. |
| LifecycleProofs.LifecycleRefinesClient | packages/ums-client/src/client.ts:61-80 | Every run of the lifecycle is, for the request tables, a run of the request model, so all its results hold in every lifecycle. |
| LifecycleProofs.SettledInEveryLifecycle | packages/ums-client/src/client.ts:35-43 | A request sent in any phase of any lifecycle is settled once the clock has passed its timeout. |
| UmsClient.Client.constructor | packages/ums-client/src/client.ts:16-22 | A new client is in the initial state, which satisfies the invariant. |
| UmsClient.Client.SendMessage | packages/ums-client/src/client.ts:25-43 | The whole new state: a duplicate is rejected without a trace, a new request listens and arms its timer, an immediate failure cleans up again. |
| UmsClient.Client.SendFailed | packages/ums-client/src/client.ts:97-97 | A late failure of the transport rejects the request and removes the listeners of its id, unless it is settled. |
| UmsClient.Client.TimeoutFired | packages/ums-client/src/client.ts:102-105 | The timer rejects the request and removes the listeners of its id, unless it is settled. |
| UmsClient.Client.PendingMessages | packages/ums-client/src/client.ts:51-56 | The number of ids with listeners; as long as no request is orphaned, the number of unsettled requests. |
| UmsClient.Client.Receive | packages/ums-client/src/client.ts:61-70 | A message goes to the subscribed handlers in turn, each emitting a response or a notification, until one throws. |
| UmsClient.Client.OnNotification | packages/ums-client/src/client.ts:45-48 | Registers a lasting listener exactly if the client is started. |
| UmsClient.Client.Start | packages/csds-client/src/client.ts:51-53 | Begins a start exactly if the client is stopped with no transition pending; the state changes before the hook runs. |
| UmsClient.Client.ResolveDone | packages/csds-client/src/client.ts:90-109 | The directory is stored and the start or refresh goes on to the session, or the hook fails. |
| UmsClient.Client.SessionRefreshDone | packages/le-client/src/client.ts:53-56 | The end of a refresh: a start queues the first refresh timer and logs in, a tick queues the next timer, a failure ends the hook. |
| UmsClient.Client.LoginDone | packages/le-client/src/client.ts:36-39 | The session is stored or the start fails. |
| UmsClient.Client.ServiceResolved | packages/transport-client/src/client.ts:35-43 | The transport gets a socket, or the start fails before one is made, with the socket of an earlier start kept or dropped. |
| UmsClient.Client.ConnectDone | packages/transport-client/src/client.ts:35-45 | Only a successful connect adds one message handler and completes the start. |
| UmsClient.Client.Refresh | packages/csds-client/src/client.ts:61-64 | Begins a manual refresh exactly if the client is started with no transition pending. |
| UmsClient.Client.RefreshTimerFired | packages/csds-client/src/client.ts:115-125 | A tick begins a refresh if the state machine allows it and queues the next timer at once otherwise. |
| UmsClient.Client.Stop | packages/csds-client/src/client.ts:98-102 | Begins a stop exactly if the client is started with no transition pending: timer and domains go, then logout, or disconnect without session. |
| UmsClient.Client.LogoutDone | packages/le-client/src/client.ts:44-48 | The session goes and the disconnect begins, or the stop fails with the session kept. |
| UmsClient.Client.DisconnectDone | packages/ums-client/src/client.ts:75-80 | Both listener tables are emptied, and the unsettled requests that lose their listeners are recorded; or the stop fails with the tables kept. |
| EndToEnd.ResolvedOrNamesake | packages/ums-client/src/client.ts:91-99 | In every run, with no condition on ids: a resolved request, or another one with the same id, had its message handed to the socket. |
| EndToEndFailures.GivenUpIsRejected | packages/ums-client/src/client.ts:91-99 | In every step of the transport an unsettled request is rejected if a callback of its message runs with an error, and no other request changes. |
| EndToEndReuse.SpentIsSafe | packages/ums-client/src/client.ts:26-42 | If the id is spent when the request is made, then in every later state, whatever else uses the id, a resolved request had its own message handed to the socket exactly once. |
| EndToEndMisleads.ReuseSafeIff | packages/transport-ws/src/transport.ts:239-271 | For a started client, a transport with a queue and an id whose earlier requests are settled, in any reachable state of client, transport and wire, the first start still under way included: in all continuations the new request resolves only with its own message handed over once, if and only if its id is spent. |
| EndToEndReuse.SpentIdsResolveOwn | packages/ums-client/src/client.ts:91-99 | If every request that reaches the transport uses a spent id, every request that resolves had its own message handed over exactly once. |
| EndToEndReuse.ResolvedWasSent | packages/ums-client/src/client.ts:91-99 | If no id is used twice and the server answers only what it received, every request that resolves had its own message handed to the socket exactly once, and its response carries its id, although other messages of rejected requests are delivered later. |
| EndToEnd.StepInv | packages/ums-client/src/client.ts:91-99 | Every step of client, transport and wire keeps: each batch is one request's message, what the server received was handed over, and each resolved request was answered under its id. |
| EndToEndRestart.StartSendsIff | packages/transport-client/src/client.ts:35-45 | In every reachable state, a start that has its session and in which everything else succeeds ends complete and connected; the next request is queued if and only if the transport was not connected before, and no request with its id listens. |
| EndToEndRestart.RestartIsMute | packages/transport-client/src/client.ts:35-53 | From every reachable state of a complete, connected client: a stop whose logout fails and a start in which everything succeeds end complete and connected, and from then on, in every run up to the next connect, every request is rejected at once and no message is accepted. |
| EndToEndRuns.ReusedIdMisleads | packages/transport-ws/src/transport.ts:247-255 | A run of a starting client that uses an id twice: the second request resolves by the answer to the kept message of the first, its own message never handed over. |
| CsdsResolver.KeyAgreesWithUrl | packages/csds-caching-resolver/src/resolver.ts:11-12 | For one domain and account ids without '_' and '/', cache keys are equal exactly when request URLs are, empty and missing service included. |
| CsdsResolver.KeyDetermines | packages/csds-caching-resolver/src/resolver.ts:11-12 | For account ids without '_', cache keys are equal exactly when account and service are, empty and missing service included. |
| CsdsResolver.KeyCollision | packages/csds-caching-resolver/src/resolver.ts:11-12 | For names without '/', equal keys mean the same URL if and only if domain and account id are equal. |
| CsdsResolver.CollisionExists | packages/csds-caching-resolver/src/resolver.ts:11-12 | Any account and service collide with the account named by their key, and with themselves on another domain. |
| CsdsResolver.UrlDetermines | packages/csds-simple-resolver/src/resolver.ts:18-20 | For names without '/', the URL tells domain, account and service apart. |
| CsdsResolver.UrlIs | packages/csds-simple-resolver/src/resolver.ts:18-20 | The URL of one service and of all services; an empty service counts as none. |
| CsdsResolver.ToDirectory | packages/csds-simple-resolver/src/resolver.ts:23-30 | A list yields the directory of the listed services, each with its last listed address; one entry yields this entry, and no body the empty directory. |
| CsdsResolver.DirectoryUnique | packages/csds-simple-resolver/src/resolver.ts:25-28 | There is only one such directory. |
| CachingResolver.CacheRefinement | packages/csds-caching-resolver/src/resolver.ts:9-14 | Over every run with one domain and account ids without '_', each answer is that of an uncached call for the same account, service and URL, made by the request itself or less than `maxAge` before it. |
| CachingResolver.NextCallIff | packages/csds-caching-resolver/src/resolver.ts:9-14 | After a miss has made a call, and while it is the last one with its key: a request with this key makes another call if and only if `maxAge` has passed since, or in between this call failed, or another call with the key failed and took the newer entry along. |
| CachingResolver.CallsAreSpaced | packages/csds-caching-resolver/src/resolver.ts:13-13 | Over any run, two uncached calls with one key are at least `maxAge` apart, unless the entry of the last call before the second was dropped in between by a failure of a call with the key; if failed calls drop only their own entries, unless the first failed. |
| CachingResolver.LateFailureDropsNewer | packages/csds-caching-resolver/src/resolver.ts:13-13 | A run in which a late failure drops a newer entry, so that the third call comes too soon after the second, which has not failed. |
| CachingResolver.FailuresAreNotCached | packages/csds-caching-resolver/src/resolver.ts:13-13 | In every reachable state a new request is never answered by a call that has failed. |
| CachingResolver.RepliesGetTheBody | packages/csds-caching-resolver/src/resolver.ts:13-13 | A settled call keeps its outcome, the body of its answer or its failure, in every later state, for all requests answered with it; behind a failure there are no more of these. |
| CachingResolver.CachingCsdsResolver.Resolve | packages/csds-caching-resolver/src/resolver.ts:9-14 | The memoised `resolve`: a fresh entry is used, otherwise exactly one uncached call is made and remembered. |
| CachingResolver.CachingCsdsResolver.Settled | packages/csds-caching-resolver/src/resolver.ts:13-13 | An uncached call settles; a failed one loses its entry, and a newer entry of the key goes or stays as the library chooses. |
| UuidGenerator.TemplateIsConcatenation | packages/ums-id-generator/src/generator.ts:8-8 | The concatenation of the five numbers is the template string. |
| UuidGenerator.GenerateId | packages/ums-id-generator/src/generator.ts:8-13 | For every sequence of draws the result is a lower-case version 4 UUID string (sections 3, 4.1.1, 4.1.3 and 4.4 of RFC 4122). |
| UuidDigits.DigitAt | packages/ums-id-generator/src/generator.ts:8-8 | For every position: a replaced digit `a` of the template gives the digit with the value a ^ (draw >> (a / 4)), with the draws taken in order of the replaced digits; the other characters are those of the template. |
| UuidGenerator.ChoicesAre | packages/ums-id-generator/src/generator.ts:8-8 | What counts of the 31 draws are 30 whole four-bit draws and the upper two bits of the one at index 15. |
| UuidGenerator.IdentifierInjective | packages/ums-id-generator/src/generator.ts:8-8 | Two sequences of draws give the same identifier if and only if these choices agree. |
| UuidGenerator.IdentifierSurjective | packages/ums-id-generator/src/generator.ts:8-8 | Every version 4 identifier is generated by some draws. |

## Left out

- EndToEndMisleads.ReuseSafeIff: that an unspent id misleads is proved for ids whose earlier requests are all settled. An earlier request that is unsettled either listens, so that the new one is rejected as a duplicate, or is an orphan, whose failure removes the listener of the new one (`UmsProofs.ForeignRemoval`), so that a kept message need not mislead; that a spent id is safe is proved without this condition (`EndToEndReuse.SpentIsSafe`).
- TransportOrder.LifetimeOrder: the quiet beginning is sufficient, not necessary; no exact condition is given for whole lifetimes that begin beside older queues, only for single put-backs.
- The real socket, HTTP, login and logout traffic: they are events and results chosen freely by a run.
- The insides of the queue, socket, state machine and memoising libraries: only what is listed above is assumed of them. That the queue library starts its worker and its callbacks through deferred calls is modelled by `Dispatch` events at any later time; for an empty batch the drain callback is taken to run in the same step.
- `heartBeatCheck` (packages/transport-ws/src/transport.ts:324-347): it is called only by itself.
- Durations of the drain, retry and refresh timers, and `adjustConfByConnectionStrategy`, which only sets a duration: these timers may fire at any time in a run, which covers every duration.
- Two calls made by a caller within one macrotask are two steps of the model with nothing forbidden in between.
- The end of a periodic refresh and the queueing of the next one (packages/csds-client/src/client.ts:119-123) are one step.
- The promise that `disconnect` returns and the listeners it leaves on the transport (packages/transport-ws/src/transport.ts:176-191): when it settles is an event.
- Listeners that add or remove listeners while an emit runs: the functions that settle promises do not.
- The emitter's warning about too many listeners and its own events about added and removed listeners.
- CsdsResolver.ToDirectory: a service named like a special object property (`__proto__`) is an ordinary key here.
- UuidGenerator.GenerateId: the draws are an input; that they are random is not stated.
- `authenticatedRequest`, `resolveService`, session providers, notification wrappers and types, the JSON schema, configuration classes, loggers, mocks, connection URL factories and `UUIDGenerator`: they would add only easy members.
- JSON serialisation: messages are opaque values with an id, a response id or a type.
