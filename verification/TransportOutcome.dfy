/** What a caller of `sendMessages` may conclude, and what the drain timer and the references do,
    in every reachable state of the transport. */
module TransportOutcome {
  import opened Wrappers
  import opened TransportModel
  import opened TransportBalance

  // ---------- the invariant ----------

  predicate Fits(acc: seq<Accepted>, task: Task) {
    && task.ticket < |acc|
    && task.msg == acc[task.ticket].msg
    && (task.cb.Caller? ==> task.cb.batch == acc[task.ticket].batch)
  }

  ghost predicate AllFit(acc: seq<Accepted>, ts: seq<Task>) {
    forall k :: k in ts ==> Fits(acc, k)
  }

  ghost predicate QueueFits(acc: seq<Accepted>, q: Queue, sockets: nat) {
    && AllFit(acc, q.waiting)
    && (q.flight.Some? ==> Fits(acc, q.flight.value.task))
    && (q.flight.Some? && q.flight.value.phase.Polling? ==>
          q.flight.value.phase.socket < sockets && q.flight.value.phase.retries >= -1)
  }

  ghost predicate RanFits(h: History, r: Ran) {
    && r.batch < h.batches
    && (r.ticket.Some? ==> r.ticket.value < |h.accepted| && h.accepted[r.ticket.value].batch == r.batch)
    && (r.ok ==> r.ticket.Some? && Count(h.sent, ByTicket(r.ticket.value)) >= 1)
  }

  ghost predicate BooksFit(h: History) {
    && (forall t :: 0 <= t < |h.accepted| ==> h.accepted[t].batch < h.batches)
    && AllFit(h.accepted, h.handed) && AllFit(h.accepted, h.sent) && AllFit(h.accepted, h.sendFailed)
    && AllFit(h.accepted, h.refused) && AllFit(h.accepted, h.flushed)
    && (forall r :: r in h.ran ==> RanFits(h, r))
  }

  /** At most one drain timer is live, and the stored handle names it. */
  ghost predicate DrainDisciplined(s: State) {
    && s.liveTimers == (if s.drainHandle.Some? then {s.drainHandle.value} else {})
    && (s.drainHandle.Some? ==> s.drainHandle.value < s.nextTimer)
  }

  ghost predicate RefsValid(s: State) {
    && (s.ws.Some? ==> s.ws.value < |s.sockets|)
    && (s.sendingQueue.Some? ==> s.sendingQueue.value < |s.queues|)
  }

  ghost predicate QueuesFit(s: State) {
    forall k :: 0 <= k < |s.queues| ==> QueueFits(s.hist.accepted, s.queues[k], |s.sockets|)
  }

  ghost predicate Valid(s: State) {
    RefsValid(s) && DrainDisciplined(s) && BooksFit(s.hist) && QueuesFit(s)
  }

  // ---------- preservation ----------

  lemma FinishValid(s: State, q: nat, task: Task, ok: bool)
    requires q < |s.queues| && Valid(s) && Fits(s.hist.accepted, task)
    requires ok ==> Count(s.hist.sent, ByTicket(task.ticket)) >= 1
    ensures Valid(Finish(s, q, task, ok))
  {
    var h := RunCallback(s.hist, task, ok);
    assert BooksFit(h) by {
      forall r | r in h.ran ensures RanFits(h, r) {
        if r in s.hist.ran { assert RanFits(s.hist, r); }
      }
    }
  }

  lemma RefuseValid(s: State, q: nat, task: Task)
    requires q < |s.queues| && Valid(s) && Fits(s.hist.accepted, task)
    ensures Valid(Refuse(s, q, task))
  {
    var s1 := s.(hist := s.hist.(refused := s.hist.refused + [task]));
    assert BooksFit(s1.hist) by {
      forall r | r in s1.hist.ran ensures RanFits(s1.hist, r) { assert RanFits(s.hist, r); }
    }
    FinishValid(s1, q, task, false);
  }

  lemma WaitValid(s: State, q: nat, task: Task, socket: nat, retries: int)
    requires q < |s.queues| && socket < |s.sockets| && Valid(s) && Fits(s.hist.accepted, task)
    ensures Valid(Wait(s, q, task, socket, retries))
  {
    match Poll(IsOpen(s, socket), retries)
    case Sleep(r) =>
    case TimedOut =>
      if !HasQueue(s) {
        RefuseValid(s, q, task);
      } else {
        var k := s.sendingQueue.value;
        var queue := s.queues[k].(waiting := [Requeued(task)] + s.queues[k].waiting);
        assert QueueFits(s.hist.accepted, s.queues[k], |s.sockets|);
        assert QueueFits(s.hist.accepted, queue, |s.sockets|);
        FinishValid(SetQueue(s, k, queue), q, task, false);
      }
    case Opened =>
      if s.ws == None {
        RefuseValid(s, q, task);
      } else {
        var h := s.hist.(handed := s.hist.handed + [task]);
        assert BooksFit(h) by {
          forall r | r in h.ran ensures RanFits(h, r) { assert RanFits(s.hist, r); }
        }
        assert QueueFits(h.accepted, s.queues[q], |s.sockets|);
      }
  }

  lemma SendCompletesValid(s: State, q: nat, task: Task, ok: bool)
    requires q < |s.queues| && Valid(s) && Fits(s.hist.accepted, task)
    ensures Valid(SendCompletes(s, q, task, ok))
  {
    var h := if ok then s.hist.(sent := s.hist.sent + [task]) else s.hist.(sendFailed := s.hist.sendFailed + [task]);
    assert BooksFit(h) by {
      forall r | r in h.ran ensures RanFits(h, r) {
        assert RanFits(s.hist, r);
        if r.ok { CountAppend(s.hist.sent, [task], ByTicket(r.ticket.value)); }
      }
    }
    CountAppend(s.hist.sent, [task], ByTicket(task.ticket));
    Single(task, ByTicket(task.ticket));
    FinishValid(s.(hist := h), q, task, ok);
  }

  lemma {:induction false} NewTasksFit(msgs: seq<Message>, acc: seq<Accepted>, first: nat, batch: nat)
    requires first + |msgs| <= |acc|
    requires forall i :: 0 <= i < |msgs| ==> acc[first + i] == Accepted(msgs[i], batch)
    ensures AllFit(acc, NewTasks(msgs, first, batch))
  {
    if msgs != [] {
      assert acc[first] == acc[first + 0];
      forall i | 0 <= i < |msgs[1..]| ensures acc[first + 1 + i] == Accepted(msgs[1..][i], batch) {
        assert acc[first + (i + 1)] == Accepted(msgs[i + 1], batch);
      }
      NewTasksFit(msgs[1..], acc, first + 1, batch);
    }
  }

  lemma SendBooksFit(s: State, msgs: seq<Message>)
    requires Valid(s)
    ensures BooksFit(SendMessages(s, msgs).hist)
  {
    var h := SendMessages(s, msgs).hist;
    assert s.hist.accepted <= h.accepted;
    assert h.sent == s.hist.sent && h.handed == s.hist.handed && h.sendFailed == s.hist.sendFailed
           && h.refused == s.hist.refused && h.flushed == s.hist.flushed;
    forall r | r in h.ran ensures RanFits(h, r) {
      if r in s.hist.ran { assert RanFits(s.hist, r); }
    }
  }

  lemma MoreAccepted(acc: seq<Accepted>, acc': seq<Accepted>, q: Queue, sockets: nat)
    requires QueueFits(acc, q, sockets) && acc <= acc'
    ensures QueueFits(acc', q, sockets)
  {
  }

  lemma SendQueuesFit(s: State, msgs: seq<Message>)
    requires Valid(s) && HasQueue(s)
    ensures QueuesFit(SendMessages(s, msgs))
  {
    var s' := SendMessages(s, msgs);
    var acc, q := s'.hist.accepted, s.sendingQueue.value;
    assert acc == s.hist.accepted + NewAccepted(msgs, s.hist.batches);
    NewTasksFit(msgs, acc, |s.hist.accepted|, s.hist.batches);
    forall k | 0 <= k < |s.queues| ensures QueueFits(acc, s'.queues[k], |s.sockets|) {
      MoreAccepted(s.hist.accepted, acc, s.queues[k], |s.sockets|);
      assert k != q ==> s'.queues[k] == s.queues[k];
    }
  }

  lemma SendValid(s: State, msgs: seq<Message>)
    requires Valid(s)
    ensures Valid(SendMessages(s, msgs))
  {
    SendBooksFit(s, msgs);
    if HasQueue(s) {
      SendQueuesFit(s, msgs);
    }
  }

  lemma FlushValid(s: State, q: nat)
    requires q < |s.queues| && Valid(s)
    ensures Valid(Flush(s, q))
  {
    var h := Flush(s, q).hist;
    assert QueueFits(s.hist.accepted, s.queues[q], |s.sockets|);
    assert BooksFit(h) by {
      forall r | r in h.ran ensures RanFits(h, r) { assert RanFits(s.hist, r); }
    }
  }

  lemma DisconnectValid(s: State, flush: bool)
    requires Valid(s)
    ensures Valid(DisconnectNow(s, flush))
  {
    if flush && HasQueue(s) && |s.queues[s.sendingQueue.value].waiting| > 0 {
      FlushValid(s, s.sendingQueue.value);
    }
  }

  lemma ConnectValid(s: State, conf: Conf, outcome: ConnectOutcome)
    requires Valid(s)
    ensures Valid(ConnectNow(s, conf, outcome))
  {
    if outcome != EndpointThrows {
      var s1 := CreateQueue(s, conf);
      assert Valid(s1);
      if IsConnected(s) {
        DisconnectValid(s1, true);
      } else {
        OpenValid(s1, outcome);
      }
    }
  }

  lemma OpenValid(s: State, outcome: ConnectOutcome)
    requires Valid(s)
    ensures Valid(OpenSocket(s, outcome))
  {
    var s' := OpenSocket(s, outcome);
    forall k | 0 <= k < |s.queues| ensures QueueFits(s.hist.accepted, s.queues[k], |s'.sockets|) {
      assert QueueFits(s.hist.accepted, s.queues[k], |s.sockets|);
    }
  }

  lemma QueueStepValid(s: State, e: Event)
    requires Valid(s) && Enabled(s, e) && (e.Dispatch? || e.PollTick? || e.SendDone?)
    ensures Valid(Do(s, e))
  {
    var q := e.queue;
    assert QueueFits(s.hist.accepted, s.queues[q], |s.sockets|);
    match e
    case Dispatch(_) =>
      var task, s1 := s.queues[q].waiting[0], TakeNext(s, q);
      assert Valid(s1);
      if s.ws == None { RefuseValid(s1, q, task); } else { WaitValid(s1, q, task, s.ws.value, MaxRetries(s.conf)); }
    case PollTick(_) =>
      var f, s1 := s.queues[q].flight.value, SetFlight(s, q, None);
      assert Valid(s1);
      WaitValid(s1, q, f.task, f.phase.socket, f.phase.retries);
    case SendDone(_, ok) =>
      var f, s1 := s.queues[q].flight.value, SetFlight(s, q, None);
      assert Valid(s1);
      SendCompletesValid(s1, q, f.task, ok);
  }

  lemma StepValid(s: State, e: Event)
    requires Valid(s)
    ensures Valid(Step(s, e))
  {
    if Enabled(s, e) {
      match e
      case Connect(conf, outcome) => ConnectValid(s, conf, outcome);
      case ConnectResumes(_, outcome) => OpenValid(s.(resuming := s.resuming - 1), outcome);
      case Disconnect(flush) => DisconnectValid(s, flush);
      case Send(msgs) => SendValid(s, msgs);
      case Dispatch(_) => QueueStepValid(s, e);
      case PollTick(_) => QueueStepValid(s, e);
      case SendDone(_, _) => QueueStepValid(s, e);
      case SocketOpen(k) =>
      case SocketClosing(k) =>
      case SocketClose(k) =>
      case SocketError(_) =>
      case DrainTimer(h) => FireValid(s, h);
    }
  }

  /** The fired timer is the stored one, so the disconnect it causes leaves none behind. */
  lemma FireValid(s: State, h: nat)
    requires Valid(s) && h in s.liveTimers
    ensures Valid(Do(s, DrainTimer(h)))
  {
    var s1 := s.(liveTimers := s.liveTimers - {h}, drainHandle := None);
    assert s1.liveTimers == {};
    DisconnectValid(s1, true);
    var s2 := s.(liveTimers := s.liveTimers - {h});
    assert DisconnectNow(s2, true) == DisconnectNow(s1, true) by {
      assert ClearDrain(s2) == ClearDrain(s1);
      if HasQueue(s) {
        var q := s.sendingQueue.value;
        assert DrainHandler(s2) == DrainHandler(s1);
        assert ClearDrain(Flush(s2, q)) == ClearDrain(Flush(s1, q));
      }
    }
  }

  lemma {:induction false} RunValid(s: State, es: seq<Event>)
    requires Valid(s)
    ensures Valid(Run(s, es))
    decreases |es|
  {
    if es != [] {
      StepValid(s, es[0]);
      RunValid(Step(s, es[0]), es[1..]);
    }
  }

  // ---------- promises ----------

  datatype Promise = Pending | Resolved | Rejected

  /** A promise is settled by the first callback of its batch. */
  function PromiseOf(ran: seq<Ran>, batch: nat): Promise {
    if ran == [] then Pending
    else if ran[0].batch == batch then (if ran[0].ok then Resolved else Rejected)
    else PromiseOf(ran[1..], batch)
  }

  /** The first callback of a batch settles its promise as it says; without one it stays open. */
  lemma {:induction false} PromiseIs(ran: seq<Ran>, batch: nat, i: nat)
    requires i <= |ran| && forall j :: 0 <= j < i ==> ran[j].batch != batch
    ensures i < |ran| && ran[i].batch == batch ==> PromiseOf(ran, batch) == if ran[i].ok then Resolved else Rejected
    ensures i == |ran| ==> PromiseOf(ran, batch) == Pending
  {
    if i > 0 { PromiseIs(ran[1..], batch, i - 1); }
  }

  lemma {:induction false} ResolvedWitness(ran: seq<Ran>, batch: nat) returns (r: Ran)
    requires PromiseOf(ran, batch) == Resolved
    ensures r in ran && r.ok && r.batch == batch
  {
    if ran[0].batch == batch { r := ran[0]; } else { r := ResolvedWitness(ran[1..], batch); }
  }

  lemma {:induction false} PromiseStable(ran: seq<Ran>, more: seq<Ran>, batch: nat)
    requires PromiseOf(ran, batch) != Pending
    ensures PromiseOf(ran + more, batch) == PromiseOf(ran, batch)
  {
    assert (ran + more)[0] == ran[0];
    if ran[0].batch != batch {
      assert (ran + more)[1..] == ran[1..] + more;
      PromiseStable(ran[1..], more, batch);
    }
  }

  /** No step but a send accepts anything, and what was handed over or called back stays on record. */
  ghost predicate Extends(h: History, h': History) {
    && h.ran <= h'.ran && h.handed <= h'.handed && h.refused <= h'.refused && h.flushed <= h'.flushed
    && h'.accepted == h.accepted && h'.batches == h.batches
    && forall i :: |h.ran| <= i < |h'.ran| ==> h'.ran[i].ticket.Some?
  }

  ghost predicate NoSend(es: seq<Event>) {
    forall e :: e in es ==> !e.Send?
  }

  lemma {:induction false} RunExtends(s: State, es: seq<Event>)
    requires NoSend(es)
    ensures Extends(s.hist, Run(s, es).hist)
    decreases |es|
  {
    if es != [] {
      StepExtends(s, es[0]);
      RunExtends(Step(s, es[0]), es[1..]);
    }
  }

  lemma FinishExtends(s: State, q: nat, task: Task, ok: bool)
    requires q < |s.queues|
    ensures Extends(s.hist, Finish(s, q, task, ok).hist)
  {
  }

  lemma WaitExtends(s: State, q: nat, task: Task, socket: nat, retries: int)
    requires q < |s.queues|
    ensures Extends(s.hist, Wait(s, q, task, socket, retries).hist)
  {
    match Poll(IsOpen(s, socket), retries)
    case Sleep(_) =>
    case TimedOut =>
      if HasQueue(s) {
        var k := s.sendingQueue.value;
        FinishExtends(SetQueue(s, k, s.queues[k].(waiting := [Requeued(task)] + s.queues[k].waiting)), q, task, false);
      } else {
        FinishExtends(s.(hist := s.hist.(refused := s.hist.refused + [task])), q, task, false);
      }
    case Opened =>
      if s.ws == None {
        FinishExtends(s.(hist := s.hist.(refused := s.hist.refused + [task])), q, task, false);
      }
  }

  lemma DisconnectExtends(s: State, flush: bool)
    ensures Extends(s.hist, DisconnectNow(s, flush).hist) && DisconnectNow(s, flush).hist.ran == s.hist.ran
  {
  }

  lemma QueueStepExtends(s: State, e: Event)
    requires Enabled(s, e) && (e.Dispatch? || e.PollTick? || e.SendDone?)
    ensures Extends(s.hist, Step(s, e).hist)
  {
    match e
    case Dispatch(q) =>
      if s.ws != None { WaitExtends(TakeNext(s, q), q, s.queues[q].waiting[0], s.ws.value, MaxRetries(s.conf)); }
    case PollTick(q) =>
      var f := s.queues[q].flight.value;
      WaitExtends(SetFlight(s, q, None), q, f.task, f.phase.socket, f.phase.retries);
    case SendDone(q, ok) =>
      var task, s1 := s.queues[q].flight.value.task, SetFlight(s, q, None);
      var h := if ok then s.hist.(sent := s.hist.sent + [task]) else s.hist.(sendFailed := s.hist.sendFailed + [task]);
      FinishExtends(s1.(hist := h), q, task, ok);
  }

  lemma ConnectionExtends(s: State, e: Event)
    requires Enabled(s, e) && (e.Connect? || e.Disconnect? || e.DrainTimer?)
    ensures Extends(s.hist, Step(s, e).hist)
  {
    match e
    case Connect(conf, _) => DisconnectExtends(CreateQueue(s, conf), true);
    case Disconnect(flush) => DisconnectExtends(s, flush);
    case DrainTimer(h) => DisconnectExtends(s.(liveTimers := s.liveTimers - {h}), true);
  }

  lemma StepExtends(s: State, e: Event)
    requires !e.Send?
    ensures Extends(s.hist, Step(s, e).hist)
  {
    if Enabled(s, e) {
      if e.Dispatch? || e.PollTick? || e.SendDone? { QueueStepExtends(s, e); }
      else if e.Connect? || e.Disconnect? || e.DrainTimer? { ConnectionExtends(s, e); }
    }
  }

  /** What was dropped stays dropped. */
  lemma DropsStay(s: State, e: Event)
    ensures s.hist.refused <= Step(s, e).hist.refused && s.hist.flushed <= Step(s, e).hist.flushed
  {
    if !e.Send? { StepExtends(s, e); }
  }

  lemma StepGrowsRan(s: State, e: Event)
    ensures s.hist.ran <= Step(s, e).hist.ran
  {
    if !e.Send? { StepExtends(s, e); }
  }

  lemma {:induction false} RunGrowsRan(s: State, es: seq<Event>)
    ensures s.hist.ran <= Run(s, es).hist.ran
    decreases |es|
  {
    if es != [] {
      StepGrowsRan(s, es[0]);
      RunGrowsRan(Step(s, es[0]), es[1..]);
    }
  }

  // ---------- the main results ----------

  /** `u` is the whole batch. */
  ghost predicate OnlyMessage(h: History, batch: nat, u: nat) {
    forall t :: 0 <= t < |h.accepted| && h.accepted[t].batch == batch ==> t == u
  }

  /** A resolved promise means that a message of its batch was sent, unchanged and exactly once;
      of a batch of one message, that this message was. */
  lemma ResolvedMeansSent(es: seq<Event>, batch: nat) returns (t: nat)
    requires PromiseOf(Run(INIT, es).hist.ran, batch) == Resolved
    ensures var h := Run(INIT, es).hist;
            && t < |h.accepted| && h.accepted[t].batch == batch
            && Count(h.sent, ByTicket(t)) == 1 && Count(h.handed, ByTicket(t)) == 1
            && (exists k :: k in h.handed && k.ticket == t && k.msg == h.accepted[t].msg)
    ensures forall u :: OnlyMessage(Run(INIT, es).hist, batch, u) ==> u == t
  {
    RunValid(INIT, es);
    var h := Run(INIT, es).hist;
    var r := ResolvedWitness(h.ran, batch);
    assert RanFits(h, r);
    t := r.ticket.value;
    HandedAtMostOnce(es, t);
    Conservation(es, t);
    var i := CountWitness(h.handed, ByTicket(t));
    assert h.handed[i] in h.handed && Fits(h.accepted, h.handed[i]);
  }

  /** Once settled, the promise of a batch never changes. */
  lemma SettledForGood(es: seq<Event>, more: seq<Event>, batch: nat)
    requires PromiseOf(Run(INIT, es).hist.ran, batch) != Pending
    ensures PromiseOf(Run(Run(INIT, es), more).hist.ran, batch) == PromiseOf(Run(INIT, es).hist.ran, batch)
  {
    var s := Run(INIT, es);
    RunGrowsRan(s, more);
    var ran' := Run(s, more).hist.ran;
    assert ran' == s.hist.ran + ran'[|s.hist.ran|..];
    PromiseStable(s.hist.ran, ran'[|s.hist.ran|..], batch);
  }

  /** When the retries are used up the caller is told of the failure and the message is kept, as the next to go. */
  lemma TimedOutIsKept(s: State, q: nat)
    requires Enabled(s, PollTick(q)) && HasQueue(s) && s.queues[q].flight.value.phase.retries < 0
    ensures var task, s', k := s.queues[q].flight.value.task, Step(s, PollTick(q)), s.sendingQueue.value;
            && s'.queues[k].waiting == [task.(cb := LogOnly)] + s.queues[k].waiting
            && s'.queues[q].flight == None
            && s'.hist.handed == s.hist.handed
            && s'.hist.ran
               == s.hist.ran + if task.cb.Caller? then [Ran(task.cb.batch, Some(task.ticket), false)] else []
  {
    var s1 := SetFlight(s, q, None);
    var task, k := s.queues[q].flight.value.task, s.sendingQueue.value;
    assert s1.queues[k].waiting == s.queues[k].waiting;
  }

  /** In every reachable state at most one drain timer is live and the handle names it. */
  lemma DrainTimerDiscipline(es: seq<Event>)
    ensures DrainDisciplined(Run(INIT, es))
  {
    RunValid(INIT, es);
  }

  /** The steps that disconnect: a call, the drain timer, and a `connect` while connected. */
  predicate Disconnects(s: State, e: Event) {
    e.Disconnect? || e.DrainTimer? || (e.Connect? && e.outcome != EndpointThrows && IsConnected(s))
  }

  /** After the synchronous part of `disconnect`, whoever calls it, no drain timer is live and socket, queue and
      configuration are gone, although the flush first calls the arming drain handler. */
  lemma DisconnectClears(es: seq<Event>, e: Event)
    requires Disconnects(Run(INIT, es), e)
    requires Enabled(Run(INIT, es), e)
    ensures var s' := Step(Run(INIT, es), e);
            && s'.liveTimers == {} && s'.drainHandle == None
            && s'.ws == None && s'.sendingQueue == None && s'.conf == None
  {
    RunValid(INIT, es);
    StepValid(Run(INIT, es), e);
  }

  /** The last task of a queue to end, sent or failed, starts a new drain timer exactly if the strategy asks for one;
      a timer that was running is cleared either way. */
  lemma DrainArms(es: seq<Event>, q: nat, ok: bool)
    requires Enabled(Run(INIT, es), SendDone(q, ok))
    requires Run(INIT, es).queues[q].waiting == [] && Run(INIT, es).queues[q].drains
    ensures var s := Run(INIT, es);
            var s' := Step(s, SendDone(q, ok));
            && (s'.drainHandle.Some? <==> s.conf.Some? && s.conf.value.strategy != LEAVE_OPEN)
            && s'.liveTimers !! s.liveTimers
            && (s'.drainHandle.Some? ==> Enabled(s', DrainTimer(s'.drainHandle.value)))
  {
    RunValid(INIT, es);
    var s := Run(INIT, es);
    var s1 := SetFlight(s, q, None);
    assert Idle(s1.queues[q]) && s1.queues[q].drains;
    StepValid(s, SendDone(q, ok));
  }

  // ---------- waiting for the socket ----------

  /** A whole wait against a history of looks at the socket, `open(i)` being the i-th. */
  datatype WaitResult = WaitResult(sleeps: nat, ok: bool)

  function WaitForSocket(open: nat -> bool, look: nat, retries: int): WaitResult
    decreases if retries < 0 then 0 else retries + 1
  {
    match Poll(open(look), retries)
    case TimedOut => WaitResult(0, false)
    case Opened => WaitResult(0, true)
    case Sleep(r) =>
      var rest := WaitForSocket(open, look + 1, r);
      WaitResult(rest.sleeps + 1, rest.ok)
  }

  ghost predicate FirstOpen(open: nat -> bool, from: nat, at: nat) {
    from <= at && open(at) && forall i: nat :: from <= i < at ==> !open(i)
  }

  /** The wait succeeds after n sleeps exactly if the first open look is the n-th and n <= maxRetries;
      it fails exactly if no look up to maxRetries is open, after maxRetries + 1 sleeps. */
  lemma {:induction false} BoundedWait(open: nat -> bool, look: nat, retries: int)
    ensures var r := WaitForSocket(open, look, retries);
            && (forall n: nat :: r == WaitResult(n, true) <==> n <= retries && FirstOpen(open, look, look + n))
            && (r == WaitResult(if retries < 0 then 0 else retries + 1, false)
                <==> forall i: nat :: look <= i <= look + retries ==> !open(i))
            && (r.ok || r.sleeps == if retries < 0 then 0 else retries + 1)
    decreases if retries < 0 then 0 else retries + 1
  {
    if retries >= 0 && !open(look) {
      BoundedWait(open, look + 1, retries - 1);
      var r, rest := WaitForSocket(open, look, retries), WaitForSocket(open, look + 1, retries - 1);
      forall n: nat
        ensures r == WaitResult(n, true) <==> n <= retries && FirstOpen(open, look, look + n)
      {
        if n > 0 {
          assert rest == WaitResult(n - 1, true)
                 <==> n - 1 <= retries - 1 && FirstOpen(open, look + 1, look + 1 + (n - 1));
        }
      }
    }
  }
}
