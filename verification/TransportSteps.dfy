/** What each event of the transport does to every field of its state, in terms of the fields alone; and from that how
    often a message is looked at before it is given up, and what a disconnect takes with it. */
module TransportSteps {
  import opened Wrappers
  import opened TransportModel
  import opened TransportBalance
  import opened TransportOutcome
  import opened TransportQuiescence

  // ---------- the end of a task ----------

  /** A caller's own callback runs; a message that was put back has none any more. */
  function Told(task: Task, ok: bool): seq<Ran> {
    match task.cb
    case Caller(b) => [Ran(b, Some(task.ticket), ok)]
    case LogOnly => []
  }

  /** A queue that has nothing left to do clears the drain timer and starts a new one if the strategy asks for it. */
  ghost predicate Rearmed(s: State, s': State, idle: bool) {
    var rest := if s.drainHandle.Some? then s.liveTimers - {s.drainHandle.value} else s.liveTimers;
    if !idle then s'.drainHandle == s.drainHandle && s'.liveTimers == s.liveTimers && s'.nextTimer == s.nextTimer
    else if s.conf.Some? && s.conf.value.strategy != LEAVE_OPEN then
      && s'.drainHandle == Some(s.nextTimer) && s'.nextTimer == s.nextTimer + 1
      && s'.liveTimers == rest + {s.nextTimer}
    else s'.drainHandle == None && s'.liveTimers == rest && s'.nextTimer == s.nextTimer
  }

  /** The worker of queue `q` is done with a task: these are the queues and the history, and nothing else changes but
      the drain timer. */
  ghost predicate Ended(s: State, s': State, qs: seq<Queue>, q: nat, h: History) {
    && q < |qs|
    && s' == s.(queues := qs, hist := h,
                drainHandle := s'.drainHandle, liveTimers := s'.liveTimers, nextTimer := s'.nextTimer)
    && Rearmed(s, s', qs[q].waiting == [] && qs[q].flight == None && qs[q].drains)
  }

  ghost predicate Refused(s: State, s': State, qs: seq<Queue>, q: nat, task: Task) {
    Ended(s, s', qs, q, s.hist.(refused := s.hist.refused + [task], ran := s.hist.ran + Told(task, false)))
  }

  /** The caller is told of the failure; the message goes in front of the queue that the transport has now, if any. */
  ghost predicate GivenUp(s: State, s': State, qs: seq<Queue>, q: nat, task: Task) {
    match s.sendingQueue
    case None => Refused(s, s', qs, q, task)
    case Some(k) =>
      && k < |qs|
      && Ended(s, s', qs[k := qs[k].(waiting := [task.(cb := LogOnly)] + qs[k].waiting)], q,
               s.hist.(ran := s.hist.ran + Told(task, false)))
  }

  ghost predicate Sleeps(s: State, s': State, qs: seq<Queue>, q: nat, task: Task, socket: nat, retries: int) {
    q < |qs| && s' == s.(queues := qs[q := qs[q].(flight := Some(Flight(task, Polling(socket, retries))))])
  }

  ghost predicate HandedOver(s: State, s': State, qs: seq<Queue>, q: nat, task: Task) {
    && q < |qs|
    && s' == s.(queues := qs[q := qs[q].(flight := Some(Flight(task, Sending)))],
                hist := s.hist.(handed := s.hist.handed + [task]))
  }

  // ---------- the worker ----------

  /** How often a message is looked at again: as configured, ten times without configuration. */
  function Retries(s: State): int {
    if s.conf.Some? then s.conf.value.maxRetries else 10
  }

  ghost predicate Open(s: State, k: nat) {
    k < |s.sockets| && s.sockets[k] == OPEN
  }

  /** The worker takes the first message: without a socket it is refused, with a negative number of retries given up, on
      an open socket handed over; otherwise it sleeps. */
  lemma DispatchIs(s: State, q: nat)
    requires RefsValid(s) && q < |s.queues|
    requires !s.queues[q].paused && s.queues[q].flight == None && s.queues[q].waiting != []
    ensures var s', task := Step(s, Dispatch(q)), s.queues[q].waiting[0];
            var qs := s.queues[q := s.queues[q].(waiting := s.queues[q].waiting[1..])];
            match s.ws
            case None => Refused(s, s', qs, q, task)
            case Some(k) =>
              if Retries(s) < 0 then GivenUp(s, s', qs, q, task)
              else if Open(s, k) then HandedOver(s, s', qs, q, task)
              else Sleeps(s, s', qs, q, task, k, Retries(s) - 1)
  {
  }

  /** A sleeping task wakes up: with its retries used up it is given up without another look; otherwise it looks at the
      socket it began with, and if that is open it goes to the socket of now, or is refused if there is none. */
  lemma PollIs(s: State, q: nat)
    requires RefsValid(s) && q < |s.queues| && s.queues[q].flight.Some? && s.queues[q].flight.value.phase.Polling?
    ensures var s', f := Step(s, PollTick(q)), s.queues[q].flight.value;
            var qs := s.queues[q := s.queues[q].(flight := None)];
            if f.phase.retries < 0 then GivenUp(s, s', qs, q, f.task)
            else if !Open(s, f.phase.socket) then Sleeps(s, s', qs, q, f.task, f.phase.socket, f.phase.retries - 1)
            else if s.ws == None then Refused(s, s', qs, q, f.task)
            else HandedOver(s, s', qs, q, f.task)
  {
  }

  /** `ws.send` calls back: the task has ended, sent or failed, and its caller is told which. */
  lemma SendDoneIs(s: State, q: nat, ok: bool)
    requires q < |s.queues| && s.queues[q].flight.Some? && s.queues[q].flight.value.phase.Sending?
    ensures var s', task := Step(s, SendDone(q, ok)), s.queues[q].flight.value.task;
            var h := s.hist.(ran := s.hist.ran + Told(task, ok));
            Ended(s, s', s.queues[q := s.queues[q].(flight := None)], q,
                  if ok then h.(sent := h.sent + [task]) else h.(sendFailed := h.sendFailed + [task]))
  {
  }

  /** What cannot happen: a worker without a free hand, a message or leave to run; a timer, socket event or resumption
      that is not due. */
  predicate Impossible(s: State, e: Event) {
    match e
    case Dispatch(q) =>
      q >= |s.queues| || s.queues[q].paused || s.queues[q].flight.Some? || s.queues[q].waiting == []
    case PollTick(q) => q >= |s.queues| || s.queues[q].flight == None || s.queues[q].flight.value.phase == Sending
    case SendDone(q, _) => q >= |s.queues| || s.queues[q].flight == None || s.queues[q].flight.value.phase != Sending
    case SocketOpen(k) => k >= |s.sockets| || s.sockets[k] != CONNECTING
    case SocketClosing(k) => k >= |s.sockets| || s.sockets[k] == CLOSING || s.sockets[k] == CLOSED
    case SocketClose(k) => k >= |s.sockets| || s.sockets[k] == CLOSED
    case SocketError(k) => k >= |s.sockets| || s.sockets[k] == CLOSED
    case DrainTimer(h) => h !in s.liveTimers
    case ConnectResumes(_, _) => s.resuming == 0
    case Connect(_, _) => false
    case Disconnect(_) => false
    case Send(_) => false
  }

  lemma ImpossibleIs(s: State, e: Event)
    requires Impossible(s, e)
    ensures Step(s, e) == s
  {
  }

  // ---------- sending ----------

  lemma {:induction false} NewTaskAt(msgs: seq<Message>, first: nat, batch: nat, i: nat)
    requires i < |msgs|
    ensures |NewTasks(msgs, first, batch)| == |msgs|
    ensures NewTasks(msgs, first, batch)[i] == Task(first + i, msgs[i], Caller(batch))
    decreases |msgs|
  {
    NewTasksLength(msgs, first, batch);
    if i > 0 { NewTaskAt(msgs[1..], first + 1, batch, i - 1); }
  }

  lemma {:induction false} NewTasksLength(msgs: seq<Message>, first: nat, batch: nat)
    ensures |NewTasks(msgs, first, batch)| == |msgs|
  {
    if msgs != [] { NewTasksLength(msgs[1..], first + 1, batch); }
  }

  /** The messages are accepted, in order, each as the next ticket and with the callback of its batch. */
  ghost predicate Queued(s: State, s': State, k: nat, msgs: seq<Message>) {
    var b, n := s.hist.batches, |s.hist.accepted|;
    && k < |s.queues| && k < |s'.queues|
    && var w, w', acc := s.queues[k].waiting, s'.queues[k].waiting, s'.hist.accepted;
       && |acc| == n + |msgs| && acc[..n] == s.hist.accepted && |w'| == |w| + |msgs| && w'[..|w|] == w
       && forall i :: 0 <= i < |msgs| ==>
            acc[n + i] == Accepted(msgs[i], b) && w'[|w| + i] == Task(n + i, msgs[i], Caller(b))
  }

  lemma Accepts(s: State, k: nat, msgs: seq<Message>)
    requires k < |s.queues|
    ensures var s' := Accept(CountBatch(s), k, msgs, s.hist.batches);
            && Queued(s, s', k, msgs)
            && s' == s.(queues := s.queues[k := s.queues[k].(waiting := s'.queues[k].waiting)],
                        hist := s.hist.(batches := s.hist.batches + 1, accepted := s'.hist.accepted))
  {
    var b, n, w := s.hist.batches, |s.hist.accepted|, s.queues[k].waiting;
    var s', tasks, news := Accept(CountBatch(s), k, msgs, b), NewTasks(msgs, n, b), NewAccepted(msgs, b);
    NewTasksLength(msgs, n, b);
    var w', acc := s'.queues[k].waiting, s'.hist.accepted;
    assert w' == w + tasks && acc == s.hist.accepted + news;
    forall i | 0 <= i < |msgs|
      ensures acc[n + i] == Accepted(msgs[i], b) && w'[|w| + i] == Task(n + i, msgs[i], Caller(b))
    {
      NewTaskAt(msgs, n, b, i);
      assert acc[n + i] == news[i] && w'[|w| + i] == tasks[i];
    }
  }

  /** A batch is rejected at once without a queue. Otherwise its messages go to the end of the queue, in order; an empty
      batch on an idle queue only rearms the drain timer. */
  lemma SendIs(s: State, msgs: seq<Message>)
    requires RefsValid(s)
    ensures var s', b := Step(s, Send(msgs)), s.hist.batches;
            match s.sendingQueue
            case None => s' == s.(hist := s.hist.(batches := b + 1, ran := s.hist.ran + [Ran(b, None, false)]))
            case Some(k) =>
              && Queued(s, s', k, msgs)
              && s' == s.(queues := s.queues[k := s.queues[k].(waiting := s'.queues[k].waiting)],
                          hist := s.hist.(batches := b + 1, accepted := s'.hist.accepted),
                          drainHandle := s'.drainHandle, liveTimers := s'.liveTimers, nextTimer := s'.nextTimer)
              && Rearmed(s, s', msgs == [] && s.queues[k].waiting == [] && s.queues[k].flight == None
                                && s.queues[k].drains)
  {
    if s.sendingQueue.Some? {
      var k := s.sendingQueue.value;
      Accepts(s, k, msgs);
      DrainKeepsBooks(Accept(CountBatch(s), k, msgs, s.hist.batches));
    }
  }

  // ---------- connecting and disconnecting ----------

  /** A flush empties the queue that the transport has, if anything waits in it, and takes its drain callback. */
  ghost predicate QueuesAfterFlush(s: State, s': State, flush: bool) {
    if flush && s.sendingQueue.Some? && s.sendingQueue.value < |s.queues|
       && s.queues[s.sendingQueue.value].waiting != []
    then
      var k := s.sendingQueue.value;
      && s'.queues == s.queues[k := s.queues[k].(waiting := [], drains := false)]
      && s'.hist == s.hist.(flushed := s.hist.flushed + s.queues[k].waiting)
    else s'.queues == s.queues && s'.hist == s.hist
  }

  /** Nothing but the queues is left of a connection; its socket is closing unless it is closed. */
  ghost predicate Dropped(s: State, s': State) {
    && s'.ws == None && s'.sendingQueue == None && s'.conf == None && s'.drainHandle == None && s'.liveTimers == {}
    && s'.resuming == s.resuming
    && s'.sockets == if s.ws.Some? && s.ws.value < |s.sockets| && s.sockets[s.ws.value] != CLOSED
                     then s.sockets[s.ws.value := CLOSING] else s.sockets
  }

  lemma DisconnectIs(s: State, flush: bool)
    requires Valid(s)
    ensures var s' := Step(s, Disconnect(flush)); Dropped(s, s') && QueuesAfterFlush(s, s', flush)
  {
    DisconnectValid(s, flush);
  }

  lemma DrainTimerIs(s: State, h: nat)
    requires Valid(s) && h in s.liveTimers
    ensures var s' := Step(s, DrainTimer(h)); Dropped(s, s') && QueuesAfterFlush(s, s', true)
  {
    FireValid(s, h);
  }

  /** A connect makes a new queue first; an open connection is then closed and takes that queue with it, so that nothing
      is flushed; otherwise the socket is made. If the endpoint throws, only the configuration is set. */
  lemma ConnectIs(s: State, conf: Conf, outcome: ConnectOutcome)
    requires Valid(s)
    ensures var s', n := Step(s, Connect(conf, outcome)), |s.queues|;
            if outcome == EndpointThrows then s' == s.(conf := Some(conf))
            else if s.ws.Some? && Open(s, s.ws.value) then
              && s'.ws == None && s'.sendingQueue == None && s'.conf == None && s'.drainHandle == None
              && s'.liveTimers == {} && s'.resuming == s.resuming + 1 && s'.sockets == s.sockets[s.ws.value := CLOSING]
              && s'.queues == s.queues + [Queue([], None, false, true)] && s'.hist == s.hist
            else
              s' == s.(conf := Some(conf), queues := s.queues + [Queue([], None, false, true)], sendingQueue := Some(n),
                       ws := if outcome == SocketCreated then Some(|s.sockets|) else s.ws,
                       sockets := if outcome == SocketCreated then s.sockets + [CONNECTING] else s.sockets)
  {
    ConnectValid(s, conf, outcome);
  }

  lemma ConnectResumesIs(s: State, closed: bool, outcome: ConnectOutcome)
    requires s.resuming > 0
    ensures Step(s, ConnectResumes(closed, outcome))
            == var made := closed && outcome == SocketCreated;
               s.(resuming := s.resuming - 1,
                  ws := if made then Some(|s.sockets|) else s.ws,
                  sockets := if made then s.sockets + [CONNECTING] else s.sockets)
  {
  }

  function WithPaused(s: State, paused: bool): seq<Queue>
    requires s.sendingQueue.Some? ==> s.sendingQueue.value < |s.queues|
  {
    match s.sendingQueue
    case None => s.queues
    case Some(k) => s.queues[k := s.queues[k].(paused := paused)]
  }

  /** Whichever socket it comes from, an event of a socket pauses or resumes the queue that the transport has now:
      open resumes, close and error pause. */
  lemma SocketEventsAre(s: State, k: nat)
    requires RefsValid(s) && k < |s.sockets|
    ensures s.sockets[k] == CONNECTING ==>
              Step(s, SocketOpen(k)) == s.(sockets := s.sockets[k := OPEN], queues := WithPaused(s, false))
    ensures s.sockets[k] in {CONNECTING, OPEN} ==>
              Step(s, SocketClosing(k)) == s.(sockets := s.sockets[k := CLOSING])
    ensures s.sockets[k] != CLOSED ==>
              Step(s, SocketClose(k)) == s.(sockets := s.sockets[k := CLOSED], queues := WithPaused(s, true))
    ensures s.sockets[k] != CLOSED ==> Step(s, SocketError(k)) == s.(queues := WithPaused(s, true))
  {
  }
}
