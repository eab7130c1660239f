/** State and steps of the WebSocket transport and its one-worker send queues.
    One step is one JavaScript macrotask together with the microtasks it drains.
    Queues and sockets are referred to by their creation index, so that a queue
    which the transport has let go of keeps running, as it does in the program. */
module TransportModel {
  import opened Wrappers

  // ---------- data ----------

  /** Messages are opaque to the transport. */
  datatype Message = Message(id: string, body: string)

  /** What the queue calls when a task ends: the caller's own callback, or the
      logging callback given to a message that was put back. */
  datatype Callback = Caller(batch: nat) | LogOnly

  /** A queued message; `ticket` is its index in the order of acceptance. */
  datatype Task = Task(ticket: nat, msg: Message, cb: Callback)

  /** A running task either sleeps between two looks at the socket it captured, or waits for `ws.send`. */
  datatype Phase = Polling(socket: nat, retries: int) | Sending

  datatype Flight = Flight(task: Task, phase: Phase)

  /** A queue with one worker. `drains` holds until `kill` removes the drain callback. */
  datatype Queue = Queue(waiting: seq<Task>, flight: Option<Flight>, paused: bool, drains: bool)

  datatype ReadyState = CONNECTING | OPEN | CLOSING | CLOSED

  datatype Strategy = LEAVE_OPEN | CLOSE_IMMEDIATE | CLOSE_AFTER_TIMEOUT

  datatype Conf = Conf(strategy: Strategy, maxRetries: int)

  datatype Accepted = Accepted(msg: Message, batch: nat)

  /** One run of a caller's callback; `ticket` is absent when no task was ever created. */
  datatype Ran = Ran(batch: nat, ticket: Option<nat>, ok: bool)

  /** What has happened so far. */
  datatype History = History(
    accepted: seq<Accepted>,  // by ticket
    batches: nat,             // calls of sendMessages
    ran: seq<Ran>,            // callback runs
    handed: seq<Task>,        // given to ws.send
    sent: seq<Task>,          // ws.send succeeded
    sendFailed: seq<Task>,    // ws.send failed
    refused: seq<Task>,       // ended with an error before ws.send and not put back
    flushed: seq<Task>)       // removed by disconnect

  datatype State = State(
    ws: Option<nat>,
    sockets: seq<ReadyState>,
    sendingQueue: Option<nat>,
    queues: seq<Queue>,
    conf: Option<Conf>,
    drainHandle: Option<nat>,
    liveTimers: set<nat>,
    nextTimer: nat,
    resuming: nat,            // calls of connect suspended in the disconnect at line 84
    hist: History)

  const DEFAULT_MAX_RETRIES: int := 10
  const DEFAULT_STRATEGY := LEAVE_OPEN
  const EMPTY_QUEUE := Queue([], None, false, true)
  const EMPTY_HISTORY := History([], 0, [], [], [], [], [], [])
  const INIT := State(None, [], None, [], None, None, {}, 0, 0, EMPTY_HISTORY)

  /** How far a call of `connect` gets before something throws. */
  datatype ConnectOutcome = EndpointThrows | SocketThrows | SocketCreated

  datatype Event =
    | Connect(conf: Conf, outcome: ConnectOutcome)
    | ConnectResumes(closed: bool, outcome: ConnectOutcome)
    | Disconnect(flush: bool)
    | Send(msgs: seq<Message>)
    | Dispatch(queue: nat)
    | PollTick(queue: nat)
    | SendDone(queue: nat, ok: bool)
    | SocketOpen(socket: nat)
    | SocketClosing(socket: nat)
    | SocketClose(socket: nat)
    | SocketError(socket: nat)
    | DrainTimer(handle: nat)

  // ---------- configuration and readiness ----------

  function MaxRetries(conf: Option<Conf>): int {
    if conf.Some? then conf.value.maxRetries else DEFAULT_MAX_RETRIES
  }

  function StrategyOf(conf: Option<Conf>): Strategy {
    if conf.Some? then conf.value.strategy else DEFAULT_STRATEGY
  }

  predicate IsOpen(s: State, socket: nat) {
    socket < |s.sockets| && s.sockets[socket] == OPEN
  }

  predicate IsConnected(s: State) {
    s.ws.Some? && IsOpen(s, s.ws.value)
  }

  predicate HasQueue(s: State) {
    s.sendingQueue.Some? && s.sendingQueue.value < |s.queues|
  }

  predicate Idle(q: Queue) {
    q.waiting == [] && q.flight == None
  }

  predicate Runnable(q: Queue) {
    !q.paused && q.flight == None && q.waiting != []
  }

  // ---------- waiting for the socket ----------

  datatype PollOutcome = Opened | Sleep(retries: int) | TimedOut

  /** One look at the socket. */
  function Poll(open: bool, retries: int): PollOutcome {
    if retries < 0 then TimedOut
    else if open then Opened
    else Sleep(retries - 1)
  }

  // ---------- the drain timer ----------

  function ClearDrain(s: State): State {
    s.(liveTimers := if s.drainHandle.Some? then s.liveTimers - {s.drainHandle.value} else s.liveTimers,
       drainHandle := None)
  }

  function DrainHandler(s: State): State {
    var s1 := ClearDrain(s);
    if StrategyOf(s.conf) != LEAVE_OPEN then
      s1.(drainHandle := Some(s.nextTimer), liveTimers := s1.liveTimers + {s.nextTimer}, nextTimer := s.nextTimer + 1)
    else s1
  }

  // ---------- the queue worker ----------

  function RunCallback(h: History, task: Task, ok: bool): History {
    match task.cb
    case LogOnly => h
    case Caller(b) => h.(ran := h.ran + [Ran(b, Some(task.ticket), ok)])
  }

  /** The drain callback runs when the queue has nothing left to do. */
  function DrainIfIdle(s: State, q: nat): State
    requires q < |s.queues|
  {
    if Idle(s.queues[q]) && s.queues[q].drains then DrainHandler(s) else s
  }

  /** The worker of queue `q` calls back: the task's callback runs, then the drain callback of an idle queue. */
  function Finish(s: State, q: nat, task: Task, ok: bool): State
    requires q < |s.queues|
  {
    DrainIfIdle(s.(hist := RunCallback(s.hist, task, ok)), q)
  }

  function SetQueue(s: State, q: nat, queue: Queue): State
    requires q < |s.queues|
  {
    s.(queues := s.queues[q := queue])
  }

  function SetFlight(s: State, q: nat, flight: Option<Flight>): State
    requires q < |s.queues|
  {
    SetQueue(s, q, s.queues[q].(flight := flight))
  }

  function Refuse(s: State, q: nat, task: Task): State
    requires q < |s.queues|
  {
    Finish(s.(hist := s.hist.(refused := s.hist.refused + [task])), q, task, false)
  }

  function Requeued(task: Task): Task {
    task.(cb := LogOnly)
  }

  /** The message goes to the front of the queue the transport has now, the caller is told of the failure. */
  function PutBack(s: State, q: nat, task: Task): State
    requires q < |s.queues| && HasQueue(s)
  {
    var k := s.sendingQueue.value;
    var s1 := SetQueue(s, k, s.queues[k].(waiting := [Requeued(task)] + s.queues[k].waiting));
    Finish(s1, q, task, false)
  }

  function Wait(s: State, q: nat, task: Task, socket: nat, retries: int): State
    requires q < |s.queues|
  {
    match Poll(IsOpen(s, socket), retries)
    case Sleep(r) => SetFlight(s, q, Some(Flight(task, Polling(socket, r))))
    case TimedOut => if !HasQueue(s) then Refuse(s, q, task) else PutBack(s, q, task)
    case Opened =>
      if s.ws == None then Refuse(s, q, task)
      else SetFlight(s.(hist := s.hist.(handed := s.hist.handed + [task])), q, Some(Flight(task, Sending)))
  }

  function Transmit(s: State, q: nat, task: Task): State
    requires q < |s.queues|
  {
    if s.ws == None then Refuse(s, q, task)
    else Wait(s, q, task, s.ws.value, MaxRetries(s.conf))
  }

  function TakeNext(s: State, q: nat): State
    requires q < |s.queues| && s.queues[q].waiting != []
  {
    SetQueue(s, q, s.queues[q].(waiting := s.queues[q].waiting[1..]))
  }

  function SendCompletes(s: State, q: nat, task: Task, ok: bool): State
    requires q < |s.queues|
  {
    var h := if ok then s.hist.(sent := s.hist.sent + [task]) else s.hist.(sendFailed := s.hist.sendFailed + [task]);
    Finish(s.(hist := h), q, task, ok)
  }

  // ---------- sending ----------

  function NewTasks(msgs: seq<Message>, first: nat, batch: nat): seq<Task> {
    if msgs == [] then [] else [Task(first, msgs[0], Caller(batch))] + NewTasks(msgs[1..], first + 1, batch)
  }

  function NewAccepted(msgs: seq<Message>, batch: nat): (r: seq<Accepted>)
    ensures |r| == |msgs|
  {
    seq(|msgs|, i requires 0 <= i < |msgs| => Accepted(msgs[i], batch))
  }

  function Accept(s: State, q: nat, msgs: seq<Message>, batch: nat): State
    requires q < |s.queues|
  {
    var tasks := NewTasks(msgs, |s.hist.accepted|, batch);
    SetQueue(s.(hist := s.hist.(accepted := s.hist.accepted + NewAccepted(msgs, batch))),
             q, s.queues[q].(waiting := s.queues[q].waiting + tasks))
  }

  function Enqueue(s: State, q: nat, msgs: seq<Message>, batch: nat): State
    requires q < |s.queues|
  {
    DrainIfIdle(Accept(s, q, msgs, batch), q)
  }

  function CountBatch(s: State): State {
    s.(hist := s.hist.(batches := s.hist.batches + 1))
  }

  function RejectBatch(s: State, batch: nat): State {
    s.(hist := s.hist.(ran := s.hist.ran + [Ran(batch, None, false)]))
  }

  function SendMessages(s: State, msgs: seq<Message>): State {
    var b := s.hist.batches;
    if !HasQueue(s) then RejectBatch(CountBatch(s), b) else Enqueue(CountBatch(s), s.sendingQueue.value, msgs, b)
  }

  // ---------- connecting and disconnecting ----------

  function KillQueue(s: State, q: nat): State
    requires q < |s.queues|
  {
    SetQueue(s.(hist := s.hist.(flushed := s.hist.flushed + s.queues[q].waiting)),
             q, s.queues[q].(waiting := [], drains := false))
  }

  function Flush(s: State, q: nat): State
    requires q < |s.queues|
  {
    KillQueue(if s.queues[q].drains then DrainHandler(s) else s, q)
  }

  function CloseSocket(s: State, socket: Option<nat>): State {
    if socket.Some? && socket.value < |s.sockets| && s.sockets[socket.value] != CLOSED
    then s.(sockets := s.sockets[socket.value := CLOSING])
    else s
  }

  function DropReferences(s: State): State {
    CloseSocket(ClearDrain(s).(ws := None, sendingQueue := None, conf := None), s.ws)
  }

  /** The synchronous part of `disconnect`. */
  function DisconnectNow(s: State, flush: bool): State {
    var s1 := if flush && HasQueue(s) && |s.queues[s.sendingQueue.value].waiting| > 0
              then Flush(s, s.sendingQueue.value) else s;
    DropReferences(s1)
  }

  function OpenSocket(s: State, outcome: ConnectOutcome): State {
    if outcome == SocketCreated then s.(sockets := s.sockets + [CONNECTING], ws := Some(|s.sockets|)) else s
  }

  function CreateQueue(s: State, conf: Conf): State {
    s.(conf := Some(conf), queues := s.queues + [EMPTY_QUEUE], sendingQueue := Some(|s.queues|))
  }

  /** An open connection is closed first, and the queue goes with it. */
  function OpenOrReplace(s: State, outcome: ConnectOutcome): State {
    if IsConnected(s) then DisconnectNow(s, true).(resuming := s.resuming + 1) else OpenSocket(s, outcome)
  }

  function ConnectNow(s: State, conf: Conf, outcome: ConnectOutcome): State {
    if outcome == EndpointThrows then s.(conf := Some(conf)) else OpenOrReplace(CreateQueue(s, conf), outcome)
  }

  function ResumeConnect(s: State, closed: bool, outcome: ConnectOutcome): State
    requires s.resuming > 0
  {
    var s1 := s.(resuming := s.resuming - 1);
    if closed then OpenSocket(s1, outcome) else s1
  }

  // ---------- socket events ----------

  function SetPaused(s: State, paused: bool): State {
    if HasQueue(s)
    then SetQueue(s, s.sendingQueue.value, s.queues[s.sendingQueue.value].(paused := paused))
    else s
  }

  function SetReady(s: State, socket: nat, ready: ReadyState): State
    requires socket < |s.sockets|
  {
    s.(sockets := s.sockets[socket := ready])
  }

  // ---------- steps and runs ----------

  predicate Enabled(s: State, e: Event) {
    match e
    case Connect(_, _) => true
    case ConnectResumes(_, _) => s.resuming > 0
    case Disconnect(_) => true
    case Send(_) => true
    case Dispatch(q) => q < |s.queues| && Runnable(s.queues[q])
    case PollTick(q) => q < |s.queues| && s.queues[q].flight.Some? && s.queues[q].flight.value.phase.Polling?
    case SendDone(q, _) => q < |s.queues| && s.queues[q].flight.Some? && s.queues[q].flight.value.phase.Sending?
    case SocketOpen(k) => k < |s.sockets| && s.sockets[k] == CONNECTING
    case SocketClosing(k) => k < |s.sockets| && s.sockets[k] in {CONNECTING, OPEN}
    case SocketClose(k) => k < |s.sockets| && s.sockets[k] != CLOSED
    case SocketError(k) => k < |s.sockets| && s.sockets[k] != CLOSED
    case DrainTimer(h) => h in s.liveTimers
  }

  function Do(s: State, e: Event): State
    requires Enabled(s, e)
  {
    match e
    case Connect(conf, outcome) => ConnectNow(s, conf, outcome)
    case ConnectResumes(closed, outcome) => ResumeConnect(s, closed, outcome)
    case Disconnect(flush) => DisconnectNow(s, flush)
    case Send(msgs) => SendMessages(s, msgs)
    case Dispatch(q) => Transmit(TakeNext(s, q), q, s.queues[q].waiting[0])
    case PollTick(q) =>
      var f := s.queues[q].flight.value;
      Wait(SetFlight(s, q, None), q, f.task, f.phase.socket, f.phase.retries)
    case SendDone(q, ok) => SendCompletes(SetFlight(s, q, None), q, s.queues[q].flight.value.task, ok)
    case SocketOpen(k) => SetPaused(SetReady(s, k, OPEN), false)
    case SocketClosing(k) => SetReady(s, k, CLOSING)
    case SocketClose(k) => SetPaused(SetReady(s, k, CLOSED), true)
    case SocketError(k) => SetPaused(s, true)
    case DrainTimer(h) => DisconnectNow(s.(liveTimers := s.liveTimers - {h}), true)
  }

  /** An event that cannot happen in a state leaves it as it is. */
  function Step(s: State, e: Event): State {
    if Enabled(s, e) then Do(s, e) else s
  }

  function Run(s: State, es: seq<Event>): State
    decreases |es|
  {
    if es == [] then s else Run(Step(s, es[0]), es[1..])
  }
}
