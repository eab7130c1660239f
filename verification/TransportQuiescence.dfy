/** How a queue comes to rest after its socket has closed, and the runs in which queues or sockets overlap. */
module TransportQuiescence {
  import opened Wrappers
  import opened TransportModel
  import opened TransportBalance
  import opened TransportOutcome
  import opened TransportOrder

  // ---------- what a step leaves alone ----------

  ghost predicate SameWorld(s: State, s': State) {
    && s'.ws == s.ws && s'.sockets == s.sockets && s'.sendingQueue == s.sendingQueue && s'.conf == s.conf
    && s'.resuming == s.resuming && |s'.queues| == |s.queues|
  }

  ghost predicate SameFlights(s: State, s': State) {
    && |s.queues| <= |s'.queues|
    && forall k :: 0 <= k < |s.queues| ==> s'.queues[k].flight == s.queues[k].flight
  }

  lemma FinishFrame(s: State, q: nat, task: Task, ok: bool)
    requires q < |s.queues|
    ensures SameWorld(s, Finish(s, q, task, ok)) && Finish(s, q, task, ok).queues == s.queues
  {
  }

  lemma WaitFrame(s: State, q: nat, task: Task, socket: nat, retries: int)
    requires q < |s.queues|
    ensures var s' := Wait(s, q, task, socket, retries);
            && SameWorld(s, s')
            && (forall k :: 0 <= k < |s.queues| ==> s'.queues[k].paused == s.queues[k].paused)
            && (forall k :: 0 <= k < |s.queues| && k != q ==> s'.queues[k].flight == s.queues[k].flight)
            && var asleep := Some(Flight(task, Polling(socket, retries - 1)));
            && s'.queues[q].flight in {s.queues[q].flight, Some(Flight(task, Sending)), asleep}
            && (s'.queues[q].flight == asleep && s.queues[q].flight == None ==> retries >= 0)
  {
    var s' := Wait(s, q, task, socket, retries);
    match Poll(IsOpen(s, socket), retries)
    case Sleep(r) =>
    case TimedOut =>
      if !HasQueue(s) {
        FinishFrame(s.(hist := s.hist.(refused := s.hist.refused + [task])), q, task, false);
      } else {
        var k := s.sendingQueue.value;
        FinishFrame(SetQueue(s, k, s.queues[k].(waiting := [Requeued(task)] + s.queues[k].waiting)), q, task, false);
      }
    case Opened =>
      if s.ws == None {
        FinishFrame(s.(hist := s.hist.(refused := s.hist.refused + [task])), q, task, false);
      }
  }

  /** A worker step changes the flight of its own queue only, to an idle, sending or polling one. */
  lemma QueueStepFrame(s: State, e: Event)
    requires Enabled(s, e) && (e.Dispatch? || e.PollTick? || e.SendDone?)
    ensures var s', q := Step(s, e), e.queue;
            && SameWorld(s, s')
            && (forall k :: 0 <= k < |s.queues| ==> s'.queues[k].paused == s.queues[k].paused)
            && (forall k :: 0 <= k < |s.queues| && k != q ==> s'.queues[k].flight == s.queues[k].flight)
            && (s'.queues[q].flight.Some? && s'.queues[q].flight.value.phase.Polling? ==>
                  var r := s'.queues[q].flight.value.phase.retries;
                  && !e.SendDone? && r >= -1
                  && (e.Dispatch? ==> r == MaxRetries(s.conf) - 1)
                  && (e.PollTick? ==> r == s.queues[q].flight.value.phase.retries - 1))
            && (e.SendDone? ==> s'.queues[q].flight == None)
  {
    var q := e.queue;
    match e
    case Dispatch(_) =>
      var task, s1 := s.queues[q].waiting[0], TakeNext(s, q);
      if s.ws == None {
        FinishFrame(s1.(hist := s1.hist.(refused := s1.hist.refused + [task])), q, task, false);
      } else {
        WaitFrame(s1, q, task, s.ws.value, MaxRetries(s.conf));
      }
    case PollTick(_) =>
      var f := s.queues[q].flight.value;
      WaitFrame(SetFlight(s, q, None), q, f.task, f.phase.socket, f.phase.retries);
    case SendDone(_, ok) =>
      var f, s1 := s.queues[q].flight.value, SetFlight(s, q, None);
      var h := if ok then s1.hist.(sent := s1.hist.sent + [f.task])
               else s1.hist.(sendFailed := s1.hist.sendFailed + [f.task]);
      FinishFrame(s1.(hist := h), q, f.task, ok);
  }

  lemma DisconnectFrame(s: State, flush: bool)
    ensures var s' := DisconnectNow(s, flush);
            && SameFlights(s, s') && |s'.queues| == |s.queues| && s'.sendingQueue == None && s'.resuming == s.resuming
            && |s'.sockets| == |s.sockets|
            && forall k :: 0 <= k < |s.sockets| && s.sockets[k] == CLOSED ==> s'.sockets[k] == CLOSED
  {
  }

  // ---------- coming to rest ----------

  /** Polls and send completions a running task still needs when its socket stays closed. */
  function Potential(q: Queue): int {
    match q.flight
    case None => 0
    case Some(f) => match f.phase { case Sending => 1 case Polling(_, r) => r + 2 }
  }

  predicate IsActivity(s: State, e: Event, q: nat) {
    (e == PollTick(q) || (e.SendDone? && e.queue == q)) && Enabled(s, e)
  }

  /** Number of polls and send completions of queue `q` in a run. */
  function Activity(s: State, es: seq<Event>, q: nat): nat
    decreases |es|
  {
    if es == [] then 0 else (if IsActivity(s, es[0], q) then 1 else 0) + Activity(Step(s, es[0]), es[1..], q)
  }

  ghost predicate AllClosed(s: State) {
    forall k :: 0 <= k < |s.sockets| ==> s.sockets[k] == CLOSED
  }

  /** The transport still has its queue, the queue is paused, and no socket is left. */
  ghost predicate Closing(s: State, q: nat) {
    Alone(s, q) && s.sendingQueue == Some(q) && s.queues[q].paused && AllClosed(s)
  }

  ghost predicate Undisturbed(es: seq<Event>) {
    forall e :: e in es ==> !e.Connect? && !e.Disconnect? && !e.DrainTimer?
  }

  /** A poll of a closed socket counts down, or ends the task. */
  lemma ClosingPoll(s: State, q: nat)
    requires Closing(s, q) && Valid(s) && Enabled(s, PollTick(q))
    ensures Closing(Step(s, PollTick(q)), q) && Potential(Step(s, PollTick(q)).queues[q]) + 1 == Potential(s.queues[q])
  {
    assert QueueFits(s.hist.accepted, s.queues[q], |s.sockets|);
    var f, s1 := s.queues[q].flight.value, SetFlight(s, q, None);
    assert !IsOpen(s1, f.phase.socket);
    assert Step(s, PollTick(q)) == Wait(s1, q, f.task, f.phase.socket, f.phase.retries);
    if f.phase.retries < 0 {
      var s2 := SetQueue(s1, q, s1.queues[q].(waiting := [Requeued(f.task)] + s1.queues[q].waiting));
      FinishFrame(s2, q, f.task, false);
    }
  }

  lemma ClosingSend(s: State, q: nat, ok: bool)
    requires Closing(s, q) && Enabled(s, SendDone(q, ok))
    ensures Closing(Step(s, SendDone(q, ok)), q) && Potential(Step(s, SendDone(q, ok)).queues[q]) == 0
  {
    QueueStepFrame(s, SendDone(q, ok));
  }

  lemma ClosingStep(s: State, e: Event, q: nat)
    requires Closing(s, q) && Valid(s) && !e.Connect? && !e.Disconnect? && !e.DrainTimer?
    ensures Closing(Step(s, e), q)
    ensures Potential(Step(s, e).queues[q]) + (if IsActivity(s, e, q) then 1 else 0) == Potential(s.queues[q])
  {
    if Enabled(s, e) {
      match e
      case PollTick(k) => assert k == q; ClosingPoll(s, q);
      case SendDone(k, ok) => assert k == q; ClosingSend(s, q, ok);
      case Dispatch(_) =>
      case _ => ClosingOther(s, e, q);
    }
  }

  lemma ClosingOther(s: State, e: Event, q: nat)
    requires Closing(s, q) && Enabled(s, e) && !e.Connect? && !e.Disconnect? && !e.DrainTimer?
    requires !e.Dispatch? && !e.PollTick? && !e.SendDone?
    ensures Closing(Step(s, e), q) && Potential(Step(s, e).queues[q]) == Potential(s.queues[q])
  {
  }

  lemma {:induction false} ClosingRun(s: State, es: seq<Event>, q: nat)
    requires Closing(s, q) && Valid(s) && Undisturbed(es)
    ensures Closing(Run(s, es), q)
    ensures Potential(Run(s, es).queues[q]) + Activity(s, es, q) == Potential(s.queues[q])
    decreases |es|
  {
    if es != [] {
      ClosingStep(s, es[0], q);
      StepValid(s, es[0]);
      ClosingRun(Step(s, es[0]), es[1..], q);
    }
  }

  // ---------- the retry bound within a lifetime ----------

  /** While the transport keeps the queue it keeps the configuration, no poll counter exceeds its bound,
      and the socket of this lifetime is the only one that is not closed. */
  ghost predicate Bounded(s: State, q: nat, conf: Conf, socket: nat) {
    && q < |s.queues| && (s.sendingQueue == None || s.sendingQueue == Some(q)) && s.resuming == 0
    && |s.sockets| <= socket + 1
    && (forall k: nat :: k < |s.sockets| && k < socket ==> s.sockets[k] == CLOSED)
    && (s.sendingQueue == Some(q) ==>
          s.conf == Some(conf) && Potential(s.queues[q]) <= (if conf.maxRetries < 0 then 1 else conf.maxRetries + 1))
  }

  lemma BoundedStep(s: State, e: Event, q: nat, conf: Conf, socket: nat)
    requires Bounded(s, q, conf, socket) && Alone(s, q) && !e.Connect?
    ensures Bounded(Step(s, e), q, conf, socket)
  {
    if Enabled(s, e) {
      match e
      case ConnectResumes(_, _) =>
      case Disconnect(flush) => DisconnectFrame(s, flush);
      case Send(_) =>
      case Dispatch(k) => assert k == q; QueueStepFrame(s, e);
      case PollTick(k) => assert k == q; QueueStepFrame(s, e);
      case SendDone(k, _) => assert k == q; QueueStepFrame(s, e);
      case SocketOpen(k) =>
      case SocketClosing(k) =>
      case SocketClose(k) =>
      case SocketError(_) =>
      case DrainTimer(h) => DisconnectFrame(s.(liveTimers := s.liveTimers - {h}), true);
    }
  }

  lemma {:induction false} BoundedRun(s: State, es: seq<Event>, q: nat, conf: Conf, socket: nat, first: nat,
                                      sentBefore: nat)
    requires Bounded(s, q, conf, socket) && Valid(s) && NoConnect(es) && InLine(s, q, first, sentBefore, [])
    ensures Bounded(Run(s, es), q, conf, socket)
    decreases |es|
  {
    if es != [] {
      BoundedStep(s, es[0], q, conf, socket);
      StepInLine(s, es[0], q, first, sentBefore);
      StepValid(s, es[0]);
      BoundedRun(Step(s, es[0]), es[1..], q, conf, socket, first, sentBefore);
    }
  }

  /** The main result. In a lifetime that began on a quiet transport without open sockets, let the socket close while
      the transport still has its queue. In every state after that, without disconnect or connect: the queue is paused;
      the polls and send completions so far and those still to come make exactly the number due at the close, which is
      at most maxRetries + 1 (or the one send completion); and once none is to come nothing runs, and the accepted
      messages neither sent nor dropped wait in the order of acceptance. */
  lemma QuiescenceAfterClose(before: seq<Event>, conf: Conf, outcome: ConnectOutcome, es: seq<Event>, k: nat,
                             after: seq<Event>)
    requires Quiet(Run(INIT, before)) && AllClosed(Run(INIT, before)) && outcome != EndpointThrows && NoConnect(es)
    requires var s1 := Run(Step(Run(INIT, before), Connect(conf, outcome)), es);
             Enabled(s1, SocketClose(k)) && s1.sendingQueue.Some? && Undisturbed(after)
    ensures var s0 := Run(INIT, before);
            var s2 := Step(Run(Step(s0, Connect(conf, outcome)), es), SocketClose(k));
            AtRest(s0, s2, after, |s0.queues|, if conf.maxRetries < 0 then 1 else conf.maxRetries + 1)
  {
    var s0 := Run(INIT, before);
    var c, q, first, sb := Connect(conf, outcome), |s0.queues|, |s0.hist.accepted|, |s0.hist.sent|;
    RunValid(INIT, before);
    StepValid(s0, c);
    ConnectInLine(s0, conf, outcome);
    ConnectBounded(s0, conf, outcome);
    LifetimeInvariant(Step(s0, c), es, q, conf, |s0.sockets|, first, sb);
    var s1 := Run(Step(s0, c), es);
    var s2 := Step(s1, SocketClose(k));
    StepInLine(s1, SocketClose(k), q, first, sb);
    StepValid(s1, SocketClose(k));
    BoundedStep(s1, SocketClose(k), q, conf, |s0.sockets|);
    CloseEntersClosing(s1, k, q, conf, |s0.sockets|);
    ClosingComesToRest(s0, s2, after, q, if conf.maxRetries < 0 then 1 else conf.maxRetries + 1);
  }

  /** What the main result says of a run `after` from `s2`, for a lifetime that began in `s0`. */
  ghost predicate AtRest(s0: State, s2: State, after: seq<Event>, q: nat, bound: int) {
    var s := Run(s2, after);
    && q < |s2.queues| && q < |s.queues| && |s0.hist.sent| <= |s.hist.sent|
    && s.queues[q].paused
    && Activity(s2, after, q) + Potential(s.queues[q]) == Potential(s2.queues[q]) <= bound
    && (Activity(s2, after, q) == Potential(s2.queues[q]) ==>
          && s.queues[q].flight == None
          && Minus(|s0.hist.accepted|, |s.hist.accepted|, Gone(s.hist))
             == Tickets(s.hist.sent[|s0.hist.sent|..] + s.queues[q].waiting))
  }

  lemma ConnectBounded(s: State, conf: Conf, outcome: ConnectOutcome)
    requires Quiet(s) && AllClosed(s) && outcome != EndpointThrows
    ensures Bounded(ConnectNow(s, conf, outcome), |s.queues|, conf, |s.sockets|)
  {
  }

  lemma LifetimeInvariant(s: State, es: seq<Event>, q: nat, conf: Conf, socket: nat, first: nat, sentBefore: nat)
    requires Bounded(s, q, conf, socket) && Valid(s) && NoConnect(es) && InLine(s, q, first, sentBefore, [])
    ensures Bounded(Run(s, es), q, conf, socket) && Valid(Run(s, es)) && InLine(Run(s, es), q, first, sentBefore, [])
  {
    BoundedRun(s, es, q, conf, socket, first, sentBefore);
    RunValid(s, es);
    RunInLine(s, es, q, first, sentBefore);
  }

  lemma CloseEntersClosing(s: State, k: nat, q: nat, conf: Conf, socket: nat)
    requires Bounded(s, q, conf, socket) && Alone(s, q) && s.sendingQueue.Some? && Enabled(s, SocketClose(k))
    ensures Closing(Step(s, SocketClose(k)), q)
  {
  }

  lemma ClosingComesToRest(s0: State, s2: State, after: seq<Event>, q: nat, bound: int)
    requires Closing(s2, q) && Valid(s2) && Undisturbed(after) && Potential(s2.queues[q]) <= bound
    requires InLine(s2, q, |s0.hist.accepted|, |s0.hist.sent|, [])
    ensures AtRest(s0, s2, after, q, bound)
  {
    var s, sb := Run(s2, after), |s0.hist.sent|;
    ClosingRun(s2, after, q);
    RunInLine(s2, after, q, |s0.hist.accepted|, sb);
    RunValid(s2, after);
    assert QueueFits(s.hist.accepted, s.queues[q], |s.sockets|);
    if Potential(s.queues[q]) == 0 {
      assert s.queues[q].flight == None;
      assert Line(s, q, sb, []) == s.hist.sent[sb..] + s.queues[q].waiting;
    }
  }

  // ---------- the polls of a task are the looks of one wait ----------

  /** What the polls of queue `q` see, in the order of a run. */
  function Looks(s: State, es: seq<Event>, q: nat, socket: nat): seq<bool>
    decreases |es|
  {
    if es == [] then []
    else (if es[0] == PollTick(q) then [IsOpen(s, socket)] else []) + Looks(Step(s, es[0]), es[1..], q, socket)
  }

  /** Only its own polls move a sleeping task. */
  lemma FlightFrame(s: State, e: Event, q: nat)
    requires q < |s.queues| && s.queues[q].flight.Some? && s.queues[q].flight.value.phase.Polling? && e != PollTick(q)
    ensures q < |Step(s, e).queues| && Step(s, e).queues[q].flight == s.queues[q].flight
  {
    if Enabled(s, e) {
      match e
      case Connect(conf, _) =>
        DisconnectFrame(CreateQueue(s, conf), true);
      case ConnectResumes(_, _) =>
      case Disconnect(flush) => DisconnectFrame(s, flush);
      case Send(_) =>
      case Dispatch(_) => QueueStepFrame(s, e);
      case PollTick(_) => QueueStepFrame(s, e);
      case SendDone(_, _) => QueueStepFrame(s, e);
      case SocketOpen(_) =>
      case SocketClosing(_) =>
      case SocketClose(_) =>
      case SocketError(_) =>
      case DrainTimer(h) => DisconnectFrame(s.(liveTimers := s.liveTimers - {h}), true);
    }
  }

  /** A task that has slept stays asleep, counting down, for as long as its looks find the socket not open and its
      retries last, whatever else happens in between. */
  lemma {:induction false} TaskFollowsWait(s: State, es: seq<Event>, q: nat)
    requires q < |s.queues| && s.queues[q].flight.Some? && s.queues[q].flight.value.phase.Polling?
    requires var p := s.queues[q].flight.value.phase;
             && |Looks(s, es, q, p.socket)| <= p.retries + 1
             && forall i :: 0 <= i < |Looks(s, es, q, p.socket)| ==> !Looks(s, es, q, p.socket)[i]
    ensures var f, s' := s.queues[q].flight.value, Run(s, es);
            var left := f.phase.retries - |Looks(s, es, q, f.phase.socket)|;
            q < |s'.queues| && s'.queues[q].flight == Some(Flight(f.task, Polling(f.phase.socket, left)))
    decreases |es|
  {
    if es != [] {
      var p := s.queues[q].flight.value.phase;
      var looks, rest := Looks(s, es, q, p.socket), Looks(Step(s, es[0]), es[1..], q, p.socket);
      if es[0] == PollTick(q) {
        assert looks[0] == IsOpen(s, p.socket) && looks[1..] == rest;
      } else {
        FlightFrame(s, es[0], q);
        assert looks == rest;
      }
      TaskFollowsWait(Step(s, es[0]), es[1..], q);
    }
  }

  ghost predicate Agrees(open: nat -> bool, look: nat, looks: seq<bool>) {
    forall i: nat :: look <= i < look + |looks| ==> open(i) == looks[i - look]
  }

  lemma {:induction false} WaitPrefix(open: nat -> bool, look: nat, retries: int, n: nat)
    requires n <= retries + 1 && forall i: nat :: look <= i < look + n ==> !open(i)
    ensures var rest := WaitForSocket(open, look + n, retries - n);
            WaitForSocket(open, look, retries) == WaitResult(rest.sleeps + n, rest.ok)
    decreases n
  {
    if n > 0 {
      WaitPrefix(open, look + 1, retries - 1, n - 1);
    }
  }

  /** What one poll makes of the task, by what is left of its wait. */
  ghost predicate PollDecides(s: State, q: nat, rest: WaitResult)
    requires q < |s.queues| && s.queues[q].flight.Some? && s.queues[q].flight.value.phase.Polling?
  {
    var f, s' := s.queues[q].flight.value, Step(s, PollTick(q));
    && q < |s'.queues|
    && (rest.sleeps > 0 ==>
          && s'.queues[q].flight == Some(Flight(f.task, Polling(f.phase.socket, f.phase.retries - 1)))
          && s'.hist == s.hist)
    && (rest == WaitResult(0, true) && s.ws.Some? ==>
          s'.queues[q].flight == Some(Flight(f.task, Sending)) && s'.hist.handed == s.hist.handed + [f.task])
    && (rest == WaitResult(0, true) && s.ws == None ==>
          && s'.queues[q].flight == None && s'.hist.handed == s.hist.handed
          && s'.hist.refused == s.hist.refused + [f.task])
    && (rest == WaitResult(0, false) ==>
          && s'.queues[q].flight == None && s'.hist.handed == s.hist.handed
          && if HasQueue(s) then s'.queues[s.sendingQueue.value].waiting
                                 == [Requeued(f.task)] + s.queues[s.sendingQueue.value].waiting
             else s'.hist.refused == s.hist.refused + [f.task])
  }

  lemma PollDecided(s: State, q: nat, open: nat -> bool, look: nat)
    requires q < |s.queues| && s.queues[q].flight.Some? && s.queues[q].flight.value.phase.Polling?
    requires open(look) == IsOpen(s, s.queues[q].flight.value.phase.socket)
    ensures PollDecides(s, q, WaitForSocket(open, look, s.queues[q].flight.value.phase.retries))
  {
    var f, s1 := s.queues[q].flight.value, SetFlight(s, q, None);
    assert Step(s, PollTick(q)) == Wait(s1, q, f.task, f.phase.socket, f.phase.retries);
    if Poll(open(look), f.phase.retries) == TimedOut {
      if HasQueue(s) {
        var k := s.sendingQueue.value;
        var s2 := SetQueue(s1, k, s1.queues[k].(waiting := [Requeued(f.task)] + s1.queues[k].waiting));
        FinishFrame(s2, q, f.task, false);
      } else {
        FinishFrame(s1.(hist := s1.hist.(refused := s1.hist.refused + [f.task])), q, f.task, false);
      }
    } else if Poll(open(look), f.phase.retries) == Opened && s.ws == None {
      FinishFrame(s1.(hist := s1.hist.(refused := s1.hist.refused + [f.task])), q, f.task, false);
    }
  }

  /** The looks of a task in a run decide its fate exactly as the wait says: after n looks that found the socket not
      open, the next one hands the task over, gives it up, or sleeps again, just as the wait for the whole history
      succeeds after n sleeps, fails after n sleeps, or sleeps more often. */
  lemma LooksDecide(s: State, es: seq<Event>, q: nat, open: nat -> bool, look: nat)
    requires q < |s.queues| && s.queues[q].flight.Some? && s.queues[q].flight.value.phase.Polling?
    requires var p := s.queues[q].flight.value.phase; var looks := Looks(s, es, q, p.socket);
             && |looks| <= p.retries + 1 && (forall i :: 0 <= i < |looks| ==> !looks[i]) && Agrees(open, look, looks)
             && open(look + |looks|) == IsOpen(Run(s, es), p.socket)
    ensures var p := s.queues[q].flight.value.phase;
            var n, s', r := |Looks(s, es, q, p.socket)|, Run(s, es), WaitForSocket(open, look, p.retries);
            && q < |s'.queues| && s'.queues[q].flight.Some? && s'.queues[q].flight.value.phase.Polling?
            && r.sleeps >= n && PollDecides(s', q, WaitResult(r.sleeps - n, r.ok))
  {
    var p := s.queues[q].flight.value.phase;
    var looks := Looks(s, es, q, p.socket);
    TaskFollowsWait(s, es, q);
    forall i: nat | look <= i < look + |looks| ensures !open(i) { assert !looks[i - look]; }
    WaitPrefix(open, look, p.retries, |looks|);
    var s', n := Run(s, es), |looks|;
    assert s'.queues[q].flight.value.phase == Polling(p.socket, p.retries - n);
    PollDecided(s', q, open, look + n);
    assert PollDecides(s', q, WaitForSocket(open, look + n, p.retries - n));
  }

  // ---------- overlapping queues and sockets ----------

  /** A run given state by state. */
  lemma {:induction false} RunTrace(ss: seq<State>, es: seq<Event>)
    requires |ss| == |es| + 1
    requires forall i :: 0 <= i < |es| ==> ss[i + 1] == Step(ss[i], es[i])
    ensures Run(ss[0], es) == ss[|es|]
    decreases |es|
  {
    if es != [] {
      assert ss[0 + 1] == Step(ss[0], es[0]);
      forall i | 0 <= i < |es[1..]| ensures ss[1..][i + 1] == Step(ss[1..][i], es[1..][i]) {
        assert ss[(i + 1) + 1] == Step(ss[i + 1], es[i + 1]);
      }
      RunTrace(ss[1..], es[1..]);
    }
  }

  const OPEN_CONF := Conf(LEAVE_OPEN, 0)

  /** A run in which a task of an older queue is put back into a newer one. */
  function OverlapRun(a: Message, b: Message): seq<Event> {
    [Connect(OPEN_CONF, SocketCreated), Send([a]), Dispatch(0), Disconnect(true),
     Connect(OPEN_CONF, SocketCreated), SocketOpen(1), Send([b]), Dispatch(1), SendDone(1, true),
     PollTick(0), Dispatch(1), SendDone(1, true)]
  }

  /** The states of that run: first the old queue, its task asleep, then the new one beside it. */
  function OverlapStates(a: Message, b: Message): seq<State> {
    var c, ta, tb := Some(OPEN_CONF), Task(0, a, Caller(0)), Task(1, b, Caller(1));
    var asleep := Queue([], Some(Flight(ta, Polling(0, -1))), false, true);
    var h1 := EMPTY_HISTORY.(accepted := [Accepted(a, 0)], batches := 1);
    var h2 := h1.(accepted := [Accepted(a, 0), Accepted(b, 1)], batches := 2);
    var h3 := h2.(handed := [tb]);
    var h4 := h3.(sent := [tb], ran := [Ran(1, Some(1), true)]);
    var h5 := h4.(ran := [Ran(1, Some(1), true), Ran(0, Some(0), false)]);
    var h6 := h5.(handed := [tb, Requeued(ta)]);
    var base := State(Some(0), [CONNECTING], Some(0), [EMPTY_QUEUE], c, None, {}, 0, 0, EMPTY_HISTORY);
    var s2 := base.(queues := [Queue([ta], None, false, true)], hist := h1);
    var s3 := s2.(queues := [asleep]);
    var s4 := s3.(ws := None, sendingQueue := None, conf := None, sockets := [CLOSING]);
    var s5 := s4.(ws := Some(1), sendingQueue := Some(1), conf := c, sockets := [CLOSING, CONNECTING],
                  queues := [asleep, EMPTY_QUEUE]);
    var s6 := s5.(sockets := [CLOSING, OPEN]);
    var s7 := s6.(queues := [asleep, Queue([tb], None, false, true)], hist := h2);
    var s8 := s7.(queues := [asleep, Queue([], Some(Flight(tb, Sending)), false, true)], hist := h3);
    var s9 := s8.(queues := [asleep, EMPTY_QUEUE], hist := h4);
    var s10 := s9.(queues := [EMPTY_QUEUE, Queue([Requeued(ta)], None, false, true)], hist := h5);
    var s11 := s10.(queues := [EMPTY_QUEUE, Queue([], Some(Flight(Requeued(ta), Sending)), false, true)], hist := h6);
    var s12 := s11.(queues := [EMPTY_QUEUE, EMPTY_QUEUE], hist := h6.(sent := [tb, Requeued(ta)]));
    [INIT, base, s2, s3, s4, s5, s6, s7, s8, s9, s10, s11, s12]
  }

  lemma SendOne(s: State, m: Message)
    requires HasQueue(s)
    ensures NewTasks([m], |s.hist.accepted|, s.hist.batches) == [Task(|s.hist.accepted|, m, Caller(s.hist.batches))]
    ensures NewAccepted([m], s.hist.batches) == [Accepted(m, s.hist.batches)]
  {
    assert [m][1..] == [];
  }

  lemma OverlapConnects(a: Message, b: Message)
    ensures var ss := OverlapStates(a, b);
            Step(ss[0], Connect(OPEN_CONF, SocketCreated)) == ss[1] && Step(ss[1], Send([a])) == ss[2]
  {
    var ss, ta := OverlapStates(a, b), Task(0, a, Caller(0));
    SendOne(ss[1], a);
    assert [] + [ta] == [ta];
    assert Step(ss[1], Send([a])).queues == ss[2].queues;
  }

  lemma OverlapDisconnects(a: Message, b: Message)
    ensures Step(OverlapStates(a, b)[3], Disconnect(true)) == OverlapStates(a, b)[4]
  {
    var s := OverlapStates(a, b)[3];
    assert |s.queues[0].waiting| == 0;
    assert s.sockets[0 := CLOSING] == [CLOSING];
  }

  lemma OverlapSleeps(a: Message, b: Message)
    ensures Step(OverlapStates(a, b)[2], Dispatch(0)) == OverlapStates(a, b)[3]
  {
    var s, ta := OverlapStates(a, b)[2], Task(0, a, Caller(0));
    assert s.queues[0].waiting[1..] == [];
    var s1 := TakeNext(s, 0);
    assert s1.queues == [EMPTY_QUEUE];
    assert Step(s, Dispatch(0)) == Wait(s1, 0, ta, 0, 0);
  }

  lemma OverlapReconnects(a: Message, b: Message)
    ensures var ss, es := OverlapStates(a, b), OverlapRun(a, b);
            && Step(ss[4], es[4]) == ss[5] && Step(ss[5], es[5]) == ss[6] && Step(ss[6], es[6]) == ss[7]
  {
    var ss := OverlapStates(a, b);
    SendOne(ss[6], b);
    assert [] + [Task(1, b, Caller(1))] == [Task(1, b, Caller(1))];
    assert Step(ss[6], Send([b])).queues == ss[7].queues;
  }

  lemma OverlapSends(a: Message, b: Message)
    ensures var ss, es := OverlapStates(a, b), OverlapRun(a, b);
            Step(ss[7], es[7]) == ss[8] && Step(ss[8], es[8]) == ss[9]
  {
    var ss := OverlapStates(a, b);
    assert ss[7].queues[1].waiting[1..] == [];
    assert TakeNext(ss[7], 1).queues == [ss[7].queues[0], EMPTY_QUEUE];
    assert Step(ss[7], Dispatch(1)).queues == ss[8].queues;
    assert Step(ss[8], SendDone(1, true)).queues == ss[9].queues;
  }

  lemma OverlapPutsBack(a: Message, b: Message)
    ensures Step(OverlapStates(a, b)[9], PollTick(0)) == OverlapStates(a, b)[10]
  {
    var s, s', ta := OverlapStates(a, b)[9], OverlapStates(a, b)[10], Task(0, a, Caller(0));
    var s1 := SetFlight(s, 0, None);
    assert s1.queues == [EMPTY_QUEUE, EMPTY_QUEUE];
    assert Step(s, PollTick(0)) == PutBack(s1, 0, ta);
    var s2 := SetQueue(s1, 1, EMPTY_QUEUE.(waiting := [Requeued(ta)]));
    assert s2.queues == s'.queues;
    assert [Requeued(ta)] + [] == [Requeued(ta)];
    assert PutBack(s1, 0, ta) == Finish(s2, 0, ta, false);
    assert RunCallback(s2.hist, ta, false) == s'.hist;
  }

  lemma OverlapSendsLast(a: Message, b: Message)
    ensures var ss, es := OverlapStates(a, b), OverlapRun(a, b);
            Step(ss[10], es[10]) == ss[11] && Step(ss[11], es[11]) == ss[12]
  {
    var ss := OverlapStates(a, b);
    assert ss[10].queues[1].waiting[1..] == [];
    assert TakeNext(ss[10], 1).queues == [EMPTY_QUEUE, EMPTY_QUEUE];
  }

  /** Without a quiet start the order is lost: the message accepted first is sent last. */
  lemma OverlapBreaksOrder(a: Message, b: Message)
    ensures var s := Run(INIT, OverlapRun(a, b));
            && s.hist.accepted == [Accepted(a, 0), Accepted(b, 1)]
            && s.hist.sent == [Task(1, b, Caller(1)), Task(0, a, LogOnly)]
            && Minus(0, 2, Gone(s.hist)) != Tickets(s.hist.sent)
  {
    OverlapConnects(a, b);
    OverlapDisconnects(a, b);
    OverlapSleeps(a, b);
    OverlapReconnects(a, b);
    OverlapSends(a, b);
    OverlapPutsBack(a, b);
    OverlapSendsLast(a, b);
    RunTrace(OverlapStates(a, b), OverlapRun(a, b));
    var s := OverlapStates(a, b)[12];
    assert Gone(s.hist) == {};
    assert Minus(0, 1, {}) == [0] && Minus(0, 2, {}) == [0, 1];
    assert Tickets(s.hist.sent)[0] == 1;
  }

  lemma {:induction false} NoQueueRun(s: State, es: seq<Event>)
    requires s.sendingQueue == None && NoConnect(es)
    ensures Run(s, es).sendingQueue == None
    decreases |es|
  {
    if es != [] {
      assert Step(s, es[0]).sendingQueue == None by {
        if Enabled(s, es[0]) && es[0].Dispatch? {
          var q := es[0].queue;
          assert TakeNext(s, q).sendingQueue == None;
        }
      }
      NoQueueRun(Step(s, es[0]), es[1..]);
    }
  }

  /** A `connect` that gets past its endpoint leaves the transport with a queue if and only if it was not connected;
      only then is the next message accepted, and it is the new queue that gets it. */
  lemma ConnectKeepsQueueIff(s: State, conf: Conf, outcome: ConnectOutcome, m: Message)
    requires outcome != EndpointThrows
    ensures var s' := Step(s, Connect(conf, outcome));
            && (s'.sendingQueue.Some? <==> !IsConnected(s))
            && (!IsConnected(s) ==> s'.sendingQueue == Some(|s.queues|))
            && (Step(s', Send([m])).hist.accepted != s.hist.accepted <==> !IsConnected(s))
  {
    var s' := Step(s, Connect(conf, outcome));
    DisconnectExtends(CreateQueue(s, conf), true);
    if !IsConnected(s) { SendOne(s', m); }
  }

  /** A `connect` while connected deletes the queue it has just made: from then on, until the next `connect`,
      every send is rejected at once, also after the new socket has opened. */
  lemma ReconnectLosesQueue(s: State, conf: Conf, outcome: ConnectOutcome, es: seq<Event>, msgs: seq<Message>)
    requires IsConnected(s) && outcome != EndpointThrows && NoConnect(es)
    ensures var s' := Run(Step(s, Connect(conf, outcome)), es);
            && s'.sendingQueue == None
            && Step(s', Send(msgs)).hist.ran == s'.hist.ran + [Ran(s'.hist.batches, None, false)]
            && Step(s', Send(msgs)).hist.accepted == s'.hist.accepted
  {
    NoQueueRun(Step(s, Connect(conf, outcome)), es);
  }
}
