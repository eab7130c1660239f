/** Which accepted messages can still reach the socket, whatever queues, sockets and timers a state has. */
module TransportReach {
  import opened Wrappers
  import opened TransportModel
  import opened TransportBalance
  import opened TransportOutcome
  import opened TransportQuiescence
  import opened TransportDelivery

  // ---------- the messages that cannot go ----------

  /** No socket is about to open and no suspended `connect` can still make one. */
  ghost predicate NoneOpening(s: State) {
    s.resuming == 0 && forall k :: 0 <= k < |s.sockets| ==> s.sockets[k] != CONNECTING
  }

  /** Nothing resumes queue `j` any more: it is paused, and the transport has let go of it or no socket will open. */
  ghost predicate Stuck(s: State, j: nat) {
    j < |s.queues| && s.queues[j].paused && (s.sendingQueue != Some(j) || NoneOpening(s))
  }

  ghost predicate Waits(s: State, j: nat, t: nat) {
    j < |s.queues| && exists i :: 0 <= i < |s.queues[j].waiting| && s.queues[j].waiting[i].ticket == t
  }

  ghost predicate Dropped(h: History, t: nat) {
    Count(h.refused, ByTicket(t)) >= 1 || Count(h.flushed, ByTicket(t)) >= 1
  }

  /** Ticket `t` was dropped, or waits in a stuck queue. */
  ghost predicate Dead(s: State, t: nat) {
    Dropped(s.hist, t) || exists j: nat :: Stuck(s, j) && Waits(s, j, t)
  }

  ghost predicate WasHanded(s: State, t: nat) {
    exists k :: k in s.hist.handed && k.ticket == t
  }

  // ---------- dead for good ----------

  lemma DisconnectQueues(s: State, flush: bool)
    ensures var s' := DisconnectNow(s, flush);
            && |s'.queues| == |s.queues| && s'.sendingQueue == None
            && forall k :: 0 <= k < |s.queues| ==>
                 && s'.queues[k].paused == s.queues[k].paused
                 && (s'.queues[k].waiting == s.queues[k].waiting
                     || s'.hist.flushed == s.hist.flushed + s.queues[k].waiting)
  {
  }

  lemma StuckWorker(s: State, e: Event, j: nat)
    requires Stuck(s, j) && Enabled(s, e) && (e.Dispatch? || e.PollTick? || e.SendDone?)
    ensures Stuck(Step(s, e), j)
  {
    QueueStepFrame(s, e);
  }

  lemma StuckConnection(s: State, e: Event, j: nat)
    requires Stuck(s, j) && Enabled(s, e) && (e.Connect? || e.Disconnect? || e.DrainTimer?)
    ensures Stuck(Step(s, e), j)
  {
    match e
    case Connect(conf, _) => DisconnectQueues(CreateQueue(s, conf), true);
    case Disconnect(flush) => DisconnectQueues(s, flush);
    case DrainTimer(h) => DisconnectQueues(s.(liveTimers := s.liveTimers - {h}), true);
  }

  /** Once stuck, a queue stays so in every run, through connects and disconnects. */
  lemma StuckStep(s: State, e: Event, j: nat)
    requires Stuck(s, j)
    ensures Stuck(Step(s, e), j)
  {
    if Enabled(s, e) {
      if e.Dispatch? || e.PollTick? || e.SendDone? { StuckWorker(s, e, j); }
      else if e.Connect? || e.Disconnect? || e.DrainTimer? { StuckConnection(s, e, j); }
    }
  }

  /** A worker leaves the waiting tasks of other queues alone, but for one it may put in front. */
  lemma WaitWaiting(s: State, q: nat, task: Task, socket: nat, retries: int, k: nat)
    requires q < |s.queues| && k < |s.queues|
    ensures var s' := Wait(s, q, task, socket, retries);
            && k < |s'.queues|
            && (s'.queues[k].waiting == s.queues[k].waiting
                || s'.queues[k].waiting == [Requeued(task)] + s.queues[k].waiting)
  {
    if Poll(IsOpen(s, socket), retries) == TimedOut && HasQueue(s) {
      var c := s.sendingQueue.value;
      FinishFrame(SetQueue(s, c, s.queues[c].(waiting := [Requeued(task)] + s.queues[c].waiting)), q, task, false);
    }
  }

  lemma WorkerWaiting(s: State, e: Event, j: nat)
    requires j < |s.queues| && s.queues[j].paused && Enabled(s, e) && (e.Dispatch? || e.PollTick? || e.SendDone?)
    ensures var s' := Step(s, e);
            && j < |s'.queues|
            && exists front :: s'.queues[j].waiting == front + s.queues[j].waiting
  {
    var q, ws := e.queue, s.queues[j].waiting;
    assert ws == [] + ws;
    match e
    case Dispatch(_) =>
      if s.ws != None {
        WaitWaiting(TakeNext(s, q), q, s.queues[q].waiting[0], s.ws.value, MaxRetries(s.conf), j);
      }
    case PollTick(_) =>
      var f := s.queues[q].flight.value;
      WaitWaiting(SetFlight(s, q, None), q, f.task, f.phase.socket, f.phase.retries, j);
    case SendDone(_, _) =>
  }

  lemma CountPrefix(a: seq<Task>, b: seq<Task>, l: Lens)
    requires a <= b
    ensures Count(a, l) <= Count(b, l)
  {
    CountAppend(a, b[|a|..], l);
    assert b == a + b[|a|..];
  }

  lemma DroppedStep(s: State, e: Event, t: nat)
    requires Dropped(s.hist, t)
    ensures Dropped(Step(s, e).hist, t)
  {
    DropsStay(s, e);
    CountPrefix(s.hist.refused, Step(s, e).hist.refused, ByTicket(t));
    CountPrefix(s.hist.flushed, Step(s, e).hist.flushed, ByTicket(t));
  }

  /** A waiting task of a paused queue goes on waiting or is flushed. */
  lemma PausedKeeps(s: State, e: Event, j: nat, i: nat)
    requires j < |s.queues| && s.queues[j].paused && i < |s.queues[j].waiting| && Enabled(s, e)
    ensures var t := s.queues[j].waiting[i].ticket; Waits(Step(s, e), j, t) || Dropped(Step(s, e).hist, t)
  {
    if e.Dispatch? || e.PollTick? || e.SendDone? {
      WorkerKeeps(s, e, j, i);
    } else if e.Connect? || e.Disconnect? || e.DrainTimer? {
      ConnectionKeeps(s, e, j, i);
    } else {
      OtherKeeps(s, e, j, i);
    }
  }

  lemma ConnectionKeeps(s: State, e: Event, j: nat, i: nat)
    requires j < |s.queues| && i < |s.queues[j].waiting|
    requires Enabled(s, e) && (e.Connect? || e.Disconnect? || e.DrainTimer?)
    ensures var t := s.queues[j].waiting[i].ticket; Waits(Step(s, e), j, t) || Dropped(Step(s, e).hist, t)
  {
    match e
    case Connect(conf, outcome) =>
      var s1 := CreateQueue(s, conf);
      if outcome != EndpointThrows && IsConnected(s1) {
        FlushedCounts(s1, true, j, i);
      } else {
        assert Step(s, e).queues[j].waiting[i] == s.queues[j].waiting[i];
      }
    case Disconnect(flush) => FlushedCounts(s, flush, j, i);
    case DrainTimer(h) => FlushedCounts(s.(liveTimers := s.liveTimers - {h}), true, j, i);
  }

  lemma OtherKeeps(s: State, e: Event, j: nat, i: nat)
    requires j < |s.queues| && i < |s.queues[j].waiting| && Enabled(s, e)
    requires !e.Dispatch? && !e.PollTick? && !e.SendDone? && !e.Connect? && !e.Disconnect? && !e.DrainTimer?
    ensures Waits(Step(s, e), j, s.queues[j].waiting[i].ticket)
  {
    assert Step(s, e).queues[j].waiting[i] == s.queues[j].waiting[i];
  }

  lemma WorkerKeeps(s: State, e: Event, j: nat, i: nat)
    requires j < |s.queues| && s.queues[j].paused && Enabled(s, e) && (e.Dispatch? || e.PollTick? || e.SendDone?)
    requires i < |s.queues[j].waiting|
    ensures Waits(Step(s, e), j, s.queues[j].waiting[i].ticket)
  {
    WorkerWaiting(s, e, j);
    var front :| Step(s, e).queues[j].waiting == front + s.queues[j].waiting;
    assert Step(s, e).queues[j].waiting[|front| + i] == s.queues[j].waiting[i];
  }

  lemma FlushedCounts(s: State, flush: bool, j: nat, i: nat)
    requires j < |s.queues| && i < |s.queues[j].waiting|
    ensures var s', t := DisconnectNow(s, flush), s.queues[j].waiting[i].ticket; Waits(s', j, t) || Dropped(s'.hist, t)
  {
    var s', ws := DisconnectNow(s, flush), s.queues[j].waiting;
    var t := ws[i].ticket;
    DisconnectQueues(s, flush);
    if s'.queues[j].waiting == ws {
      assert s'.queues[j].waiting[i].ticket == t;
    } else {
      CountAtLeast(ws, i, ByTicket(t));
      CountAppend(s.hist.flushed, ws, ByTicket(t));
    }
  }

  lemma DeadStep(s: State, e: Event, t: nat)
    requires Dead(s, t)
    ensures Dead(Step(s, e), t)
  {
    if Dropped(s.hist, t) {
      DroppedStep(s, e, t);
    } else {
      var j: nat :| Stuck(s, j) && Waits(s, j, t);
      var i: nat :| i < |s.queues[j].waiting| && s.queues[j].waiting[i].ticket == t;
      StuckStep(s, e, j);
      if Enabled(s, e) { PausedKeeps(s, e, j, i); }
    }
  }

  lemma {:induction false} DeadRun(s: State, es: seq<Event>, t: nat)
    requires Dead(s, t)
    ensures Dead(Run(s, es), t)
    decreases |es|
  {
    if es != [] {
      DeadStep(s, es[0], t);
      DeadRun(Step(s, es[0]), es[1..], t);
    }
  }

  // ---------- what is handed over, and what is not ----------

  lemma HandedCounts(s: State, t: nat)
    ensures WasHanded(s, t) <==> Count(s.hist.handed, ByTicket(t)) >= 1
  {
    if WasHanded(s, t) {
      var k :| k in s.hist.handed && k.ticket == t;
      var i :| 0 <= i < |s.hist.handed| && s.hist.handed[i] == k;
      CountAtLeast(s.hist.handed, i, ByTicket(t));
    }
    if Count(s.hist.handed, ByTicket(t)) >= 1 {
      var i := CountWitness(s.hist.handed, ByTicket(t));
      assert s.hist.handed[i] in s.hist.handed;
    }
  }

  /** A task that waits was never handed over. */
  lemma WaitingNotHanded(s: State, j: nat, t: nat)
    requires Balanced(s, [], []) && Waits(s, j, t)
    ensures !WasHanded(s, t)
  {
    var ws := s.queues[j].waiting;
    var i :| 0 <= i < |ws| && ws[i].ticket == t;
    CountAtLeast(ws, i, ByTicket(t));
    WireSeesNoWaiting(ws, t);
    StrictlyHeld(s.queues, j, t);
    HandedCounts(s, t);
    assert Placed(s, t) + Count([], ByTicket(t)) == Expected(s, t);
    assert Count(s.hist.handed, ByTicket(t)) == Outcomes(s, t);
  }

  lemma DeadNotHanded(s: State, t: nat)
    requires Balanced(s, [], []) && Dead(s, t)
    ensures !WasHanded(s, t)
  {
    if Dropped(s.hist, t) {
      WireIsHeld(s.queues, t);
      HandedCounts(s, t);
      assert Placed(s, t) + Count([], ByTicket(t)) == Expected(s, t);
      assert Count(s.hist.handed, ByTicket(t)) == Outcomes(s, t);
    } else {
      var j: nat :| Stuck(s, j) && Waits(s, j, t);
      WaitingNotHanded(s, j, t);
    }
  }
}
