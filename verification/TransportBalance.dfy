/** Conservation of accepted messages over every run of the transport, overlapping queues included:
    nothing is lost, duplicated or handed to the socket twice, and every callback is accounted for. */
module TransportBalance {
  import opened Wrappers
  import opened TransportModel

  // ---------- counting tasks ----------

  /** What is counted: tasks of a ticket, tasks of a ticket that still carry the caller's callback,
      or tasks of a ticket that wait for `ws.send`. */
  datatype Lens = ByTicket(ticket: nat) | ByOwner(ticket: nat) | OnWire(ticket: nat)

  predicate Sees(l: Lens, task: Task) {
    match l
    case ByTicket(t) => task.ticket == t
    case ByOwner(t) => task.ticket == t && task.cb.Caller?
    case OnWire(t) => false
  }

  function See(l: Lens, task: Task): nat {
    if Sees(l, task) then 1 else 0
  }

  function Count(ts: seq<Task>, l: Lens): nat {
    if ts == [] then 0 else See(l, ts[0]) + Count(ts[1..], l)
  }

  function InFlight(f: Option<Flight>, l: Lens): nat {
    match f
    case None => 0
    case Some(flight) =>
      if l.OnWire? then (if flight.phase.Sending? && flight.task.ticket == l.ticket then 1 else 0)
      else See(l, flight.task)
  }

  function HeldBy(q: Queue, l: Lens): nat {
    Count(q.waiting, l) + InFlight(q.flight, l)
  }

  function Held(qs: seq<Queue>, l: Lens): nat {
    if qs == [] then 0 else HeldBy(qs[0], l) + Held(qs[1..], l)
  }

  function RanFor(ran: seq<Ran>, t: nat): nat {
    if ran == [] then 0 else (if ran[0].ticket == Some(t) then 1 else 0) + RanFor(ran[1..], t)
  }

  lemma {:induction false} CountAppend(a: seq<Task>, b: seq<Task>, l: Lens)
    ensures Count(a + b, l) == Count(a, l) + Count(b, l)
  {
    if a == [] {
      assert a + b == b;
    } else {
      assert (a + b)[1..] == a[1..] + b;
      CountAppend(a[1..], b, l);
    }
  }

  lemma {:induction false} RanForAppend(a: seq<Ran>, b: seq<Ran>, t: nat)
    ensures RanFor(a + b, t) == RanFor(a, t) + RanFor(b, t)
  {
    if a == [] {
      assert a + b == b;
    } else {
      assert (a + b)[1..] == a[1..] + b;
      RanForAppend(a[1..], b, t);
    }
  }

  lemma {:induction false} HeldUpdate(qs: seq<Queue>, k: nat, q: Queue, l: Lens)
    requires k < |qs|
    ensures Held(qs[k := q], l) == Held(qs, l) - HeldBy(qs[k], l) + HeldBy(q, l)
  {
    if k == 0 {
      assert qs[k := q][1..] == qs[1..];
    } else {
      assert qs[k := q][1..] == qs[1..][k - 1 := q];
      HeldUpdate(qs[1..], k - 1, q, l);
    }
  }

  lemma {:induction false} HeldAppend(qs: seq<Queue>, q: Queue, l: Lens)
    ensures Held(qs + [q], l) == Held(qs, l) + HeldBy(q, l)
  {
    if qs == [] {
      assert qs + [q] == [q];
    } else {
      assert (qs + [q])[1..] == qs[1..] + [q];
      HeldAppend(qs[1..], q, l);
    }
  }

  lemma {:induction false} HeldAtLeast(qs: seq<Queue>, k: nat, l: Lens)
    requires k < |qs|
    ensures Held(qs, l) >= HeldBy(qs[k], l)
  {
    if k > 0 {
      HeldAtLeast(qs[1..], k - 1, l);
    }
  }

  lemma {:induction false} CountAtLeast(ts: seq<Task>, i: nat, l: Lens)
    requires i < |ts| && Sees(l, ts[i])
    ensures Count(ts, l) >= 1
  {
    if i > 0 {
      CountAtLeast(ts[1..], i - 1, l);
    }
  }

  lemma {:induction false} CountWitness(ts: seq<Task>, l: Lens) returns (i: nat)
    requires Count(ts, l) >= 1
    ensures i < |ts| && Sees(l, ts[i])
  {
    if Sees(l, ts[0]) {
      i := 0;
    } else {
      var j := CountWitness(ts[1..], l);
      i := j + 1;
    }
  }

  lemma {:induction false} WireSeesNoWaiting(ts: seq<Task>, t: nat)
    ensures Count(ts, OnWire(t)) == 0
  {
    if ts != [] {
      WireSeesNoWaiting(ts[1..], t);
    }
  }

  lemma {:induction false} NewTasksCount(msgs: seq<Message>, first: nat, batch: nat, t: nat)
    ensures Count(NewTasks(msgs, first, batch), ByTicket(t)) == if first <= t < first + |msgs| then 1 else 0
    ensures Count(NewTasks(msgs, first, batch), ByOwner(t)) == if first <= t < first + |msgs| then 1 else 0
  {
    if msgs != [] {
      NewTasksCount(msgs[1..], first + 1, batch, t);
    }
  }

  // ---------- the balance ----------

  /** Where an accepted message can be once it has left the queues. */
  function Ended(h: History, l: Lens): nat {
    Count(h.sent, l) + Count(h.sendFailed, l) + Count(h.refused, l) + Count(h.flushed, l)
  }

  function Placed(s: State, t: nat): nat {
    Ended(s.hist, ByTicket(t)) + Held(s.queues, ByTicket(t))
  }

  function Owned(s: State, t: nat): nat {
    RanFor(s.hist.ran, t) + Count(s.hist.flushed, ByOwner(t)) + Held(s.queues, ByOwner(t))
  }

  /** Times `t` was given to `ws.send`, against the outcomes of those calls. */
  function Outcomes(s: State, t: nat): nat {
    Count(s.hist.sent, ByTicket(t)) + Count(s.hist.sendFailed, ByTicket(t)) + Held(s.queues, OnWire(t))
  }

  function Expected(s: State, t: nat): nat {
    if t < |s.hist.accepted| then 1 else 0
  }

  /** Every ticket is in one place, except the tasks the worker has in hand; every callback has run, is lost
      in a flush, or is still carried by a task, except those the worker owes. */
  ghost predicate Balanced(s: State, inHand: seq<Task>, owed: seq<Task>) {
    && (forall t: nat :: Placed(s, t) + Count(inHand, ByTicket(t)) == Expected(s, t))
    && (forall t: nat :: Owned(s, t) + Count(owed, ByOwner(t)) == Expected(s, t))
    && (forall t: nat :: Count(s.hist.handed, ByTicket(t)) == Outcomes(s, t))
  }

  ghost predicate SameBooks(s: State, s': State) {
    s'.queues == s.queues && s'.hist == s.hist
  }

  lemma DrainKeepsBooks(s: State)
    ensures SameBooks(s, DrainHandler(s)) && SameBooks(s, ClearDrain(s))
  {
  }

  lemma Single(task: Task, l: Lens)
    ensures Count([task], l) == See(l, task) && Count([], l) == 0
  {
    assert [task][1..] == [];
  }

  /** The effect of a completion: only the owed callback is booked. */
  lemma FinishEffect(s: State, q: nat, task: Task, ok: bool, t: nat)
    requires q < |s.queues|
    ensures var s' := Finish(s, q, task, ok);
            && Placed(s', t) == Placed(s, t)
            && Owned(s', t) == Owned(s, t) + Count([task], ByOwner(t))
            && Outcomes(s', t) == Outcomes(s, t) && Expected(s', t) == Expected(s, t)
            && s'.hist.handed == s.hist.handed
  {
    Single(task, ByOwner(t));
    if task.cb.Caller? {
      var r := Ran(task.cb.batch, Some(task.ticket), ok);
      assert [r][1..] == [];
      RanForAppend(s.hist.ran, [r], t);
    }
    DrainKeepsBooks(s.(hist := RunCallback(s.hist, task, ok)));
  }

  lemma FinishBalanced(s: State, q: nat, task: Task, ok: bool)
    requires q < |s.queues| && Balanced(s, [], [task])
    ensures Balanced(Finish(s, q, task, ok), [], [])
  {
    forall t: nat { FinishEffect(s, q, task, ok, t); }
    assert forall t: nat :: Owned(s, t) + Count([task], ByOwner(t)) == Expected(s, t);
    assert forall t: nat :: Placed(s, t) + Count([], ByTicket(t)) == Expected(s, t);
  }

  lemma RefuseBalanced(s: State, q: nat, task: Task)
    requires q < |s.queues| && Balanced(s, [task], [task])
    ensures Balanced(Refuse(s, q, task), [], [])
  {
    var s1 := s.(hist := s.hist.(refused := s.hist.refused + [task]));
    forall t: nat
      ensures Placed(s1, t) == Placed(s, t) + Count([task], ByTicket(t))
      ensures Owned(s1, t) == Owned(s, t) && Outcomes(s1, t) == Outcomes(s, t)
    {
      CountAppend(s.hist.refused, [task], ByTicket(t));
    }
    assert forall t: nat :: Expected(s1, t) == Expected(s, t);
    FinishBalanced(s1, q, task, false);
  }

  lemma SendCompletesBalanced(s: State, q: nat, task: Task, ok: bool)
    requires q < |s.queues|
    requires forall t: nat :: Placed(s, t) + Count([task], ByTicket(t)) == Expected(s, t)
    requires forall t: nat :: Owned(s, t) + Count([task], ByOwner(t)) == Expected(s, t)
    requires forall t: nat :: Count(s.hist.handed, ByTicket(t)) == Outcomes(s, t) + Count([task], ByTicket(t))
    ensures Balanced(SendCompletes(s, q, task, ok), [], [])
  {
    var h := if ok then s.hist.(sent := s.hist.sent + [task]) else s.hist.(sendFailed := s.hist.sendFailed + [task]);
    var s1 := s.(hist := h);
    forall t: nat
      ensures Placed(s1, t) == Placed(s, t) + Count([task], ByTicket(t))
      ensures Owned(s1, t) == Owned(s, t)
      ensures Outcomes(s1, t) == Outcomes(s, t) + Count([task], ByTicket(t))
    {
      CountAppend(s.hist.sent, [task], ByTicket(t));
      CountAppend(s.hist.sendFailed, [task], ByTicket(t));
    }
    assert forall t: nat :: Expected(s1, t) == Expected(s, t);
    FinishBalanced(s1, q, task, ok);
  }

  /** The effect of replacing one queue on the three sums. */
  lemma SetQueueEffect(s: State, k: nat, q: Queue, t: nat)
    requires k < |s.queues|
    ensures Placed(SetQueue(s, k, q), t) == Placed(s, t) - HeldBy(s.queues[k], ByTicket(t)) + HeldBy(q, ByTicket(t))
    ensures Owned(SetQueue(s, k, q), t) == Owned(s, t) - HeldBy(s.queues[k], ByOwner(t)) + HeldBy(q, ByOwner(t))
    ensures Outcomes(SetQueue(s, k, q), t) == Outcomes(s, t) - HeldBy(s.queues[k], OnWire(t)) + HeldBy(q, OnWire(t))
    ensures Expected(SetQueue(s, k, q), t) == Expected(s, t)
  {
    HeldUpdate(s.queues, k, q, ByTicket(t));
    HeldUpdate(s.queues, k, q, ByOwner(t));
    HeldUpdate(s.queues, k, q, OnWire(t));
  }

  lemma PutBackBalanced(s: State, q: nat, task: Task)
    requires q < |s.queues| && HasQueue(s) && Balanced(s, [task], [task])
    ensures Balanced(PutBack(s, q, task), [], [])
  {
    var k := s.sendingQueue.value;
    var queue := s.queues[k].(waiting := [Requeued(task)] + s.queues[k].waiting);
    var s1 := SetQueue(s, k, queue);
    forall t: nat
      ensures Placed(s1, t) == Placed(s, t) + Count([task], ByTicket(t))
      ensures Owned(s1, t) == Owned(s, t) && Outcomes(s1, t) == Outcomes(s, t) && Expected(s1, t) == Expected(s, t)
    {
      SetQueueEffect(s, k, queue, t);
      CountAppend([Requeued(task)], s.queues[k].waiting, ByTicket(t));
      CountAppend([Requeued(task)], s.queues[k].waiting, ByOwner(t));
      CountAppend([Requeued(task)], s.queues[k].waiting, OnWire(t));
      Single(task, ByTicket(t));
      Single(Requeued(task), ByTicket(t));
      Single(Requeued(task), ByOwner(t));
      Single(Requeued(task), OnWire(t));
    }
    FinishBalanced(s1, q, task, false);
  }

  lemma WaitBalanced(s: State, q: nat, task: Task, socket: nat, retries: int)
    requires q < |s.queues| && s.queues[q].flight == None && Balanced(s, [task], [task])
    ensures Balanced(Wait(s, q, task, socket, retries), [], [])
  {
    match Poll(IsOpen(s, socket), retries)
    case TimedOut =>
      if !HasQueue(s) { RefuseBalanced(s, q, task); } else { PutBackBalanced(s, q, task); }
    case Sleep(r) =>
      var f := Flight(task, Polling(socket, r));
      forall t: nat
        ensures Placed(SetFlight(s, q, Some(f)), t) == Placed(s, t) + Count([task], ByTicket(t))
        ensures Owned(SetFlight(s, q, Some(f)), t) == Owned(s, t) + Count([task], ByOwner(t))
        ensures Outcomes(SetFlight(s, q, Some(f)), t) == Outcomes(s, t)
        ensures Expected(SetFlight(s, q, Some(f)), t) == Expected(s, t)
      {
        SetQueueEffect(s, q, s.queues[q].(flight := Some(f)), t);
        Single(task, ByTicket(t));
        Single(task, ByOwner(t));
      }
    case Opened =>
      if s.ws == None { RefuseBalanced(s, q, task); } else { HandBalanced(s, q, task); }
  }

  lemma HandBalanced(s: State, q: nat, task: Task)
    requires q < |s.queues| && s.queues[q].flight == None && Balanced(s, [task], [task])
    ensures var s1 := s.(hist := s.hist.(handed := s.hist.handed + [task]));
            Balanced(SetFlight(s1, q, Some(Flight(task, Sending))), [], [])
  {
    var f := Some(Flight(task, Sending));
    var s1 := s.(hist := s.hist.(handed := s.hist.handed + [task]));
    var s2 := SetFlight(s1, q, f);
    forall t: nat
      ensures Placed(s2, t) == Placed(s, t) + Count([task], ByTicket(t))
      ensures Owned(s2, t) == Owned(s, t) + Count([task], ByOwner(t))
      ensures Outcomes(s2, t) == Outcomes(s, t) + Count([task], ByTicket(t))
      ensures Count(s2.hist.handed, ByTicket(t)) == Count(s.hist.handed, ByTicket(t)) + Count([task], ByTicket(t))
      ensures Expected(s2, t) == Expected(s, t)
    {
      SetQueueEffect(s1, q, s1.queues[q].(flight := f), t);
      CountAppend(s.hist.handed, [task], ByTicket(t));
      Single(task, ByTicket(t));
      Single(task, ByOwner(t));
    }
  }

  // ---------- one step ----------

  lemma TakeNextEffect(s: State, q: nat, t: nat)
    requires q < |s.queues| && s.queues[q].waiting != []
    ensures var task := s.queues[q].waiting[0]; var s1 := TakeNext(s, q);
            && Placed(s1, t) + Count([task], ByTicket(t)) == Placed(s, t)
            && Owned(s1, t) + Count([task], ByOwner(t)) == Owned(s, t)
            && Outcomes(s1, t) == Outcomes(s, t) && Expected(s1, t) == Expected(s, t)
  {
    var ts := s.queues[q].waiting;
    SetQueueEffect(s, q, s.queues[q].(waiting := ts[1..]), t);
    Single(ts[0], ByTicket(t));
    Single(ts[0], ByOwner(t));
  }

  lemma TakeNextBalanced(s: State, q: nat)
    requires q < |s.queues| && s.queues[q].waiting != [] && Balanced(s, [], [])
    ensures var task := s.queues[q].waiting[0]; Balanced(TakeNext(s, q), [task], [task])
  {
    forall t: nat { TakeNextEffect(s, q, t); }
    assert forall t: nat :: Placed(s, t) + Count([], ByTicket(t)) == Expected(s, t);
    assert forall t: nat :: Owned(s, t) + Count([], ByOwner(t)) == Expected(s, t);
  }

  lemma DispatchBalanced(s: State, q: nat)
    requires q < |s.queues| && Runnable(s.queues[q]) && Balanced(s, [], [])
    ensures Balanced(Do(s, Dispatch(q)), [], [])
  {
    var task, s1 := s.queues[q].waiting[0], TakeNext(s, q);
    TakeNextBalanced(s, q);
    if s.ws == None {
      RefuseBalanced(s1, q, task);
    } else {
      WaitBalanced(s1, q, task, s.ws.value, MaxRetries(s.conf));
    }
  }

  /** Taking a running task out of its queue. */
  lemma DetachEffect(s: State, q: nat, t: nat)
    requires q < |s.queues| && s.queues[q].flight.Some?
    ensures var f := s.queues[q].flight.value; var s1 := SetFlight(s, q, None);
            && Placed(s1, t) + Count([f.task], ByTicket(t)) == Placed(s, t)
            && Owned(s1, t) + Count([f.task], ByOwner(t)) == Owned(s, t)
            && Outcomes(s1, t) + (if f.phase.Sending? then Count([f.task], ByTicket(t)) else 0) == Outcomes(s, t)
            && Expected(s1, t) == Expected(s, t)
  {
    var f := s.queues[q].flight.value;
    SetQueueEffect(s, q, s.queues[q].(flight := None), t);
    Single(f.task, ByTicket(t));
    Single(f.task, ByOwner(t));
  }

  lemma FlightBalanced(s: State, q: nat, e: Event)
    requires e == PollTick(q) || (e.SendDone? && e.queue == q)
    requires Enabled(s, e) && Balanced(s, [], [])
    ensures Balanced(Do(s, e), [], [])
  {
    var f := s.queues[q].flight.value;
    forall t: nat { DetachEffect(s, q, t); }
    assert forall t: nat :: Placed(s, t) + Count([], ByTicket(t)) == Expected(s, t);
    assert forall t: nat :: Owned(s, t) + Count([], ByOwner(t)) == Expected(s, t);
    var s1 := SetFlight(s, q, None);
    if e.PollTick? {
      WaitBalanced(s1, q, f.task, f.phase.socket, f.phase.retries);
    } else {
      SendCompletesBalanced(s1, q, f.task, e.ok);
    }
  }

  lemma SendRejectedBalanced(s: State, msgs: seq<Message>)
    requires Balanced(s, [], []) && !HasQueue(s)
    ensures Balanced(SendMessages(s, msgs), [], [])
  {
    var s', r := SendMessages(s, msgs), Ran(s.hist.batches, None, false);
    forall t: nat
      ensures Placed(s', t) == Placed(s, t) && Owned(s', t) == Owned(s, t)
      ensures Outcomes(s', t) == Outcomes(s, t) && Expected(s', t) == Expected(s, t)
    {
      assert [r][1..] == [];
      RanForAppend(s.hist.ran, [r], t);
    }
  }

  /** The new tasks enter every sum once. */
  lemma AcceptEffect(s: State, msgs: seq<Message>, t: nat)
    requires HasQueue(s)
    ensures var s', n := SendMessages(s, msgs), |s.hist.accepted|;
            var one := if n <= t < n + |msgs| then 1 else 0;
            && Placed(s', t) == Placed(s, t) + one && Owned(s', t) == Owned(s, t) + one
            && Outcomes(s', t) == Outcomes(s, t) && Expected(s', t) == Expected(s, t) + one
  {
    var q, n, b := s.sendingQueue.value, |s.hist.accepted|, s.hist.batches;
    var tasks := NewTasks(msgs, n, b);
    var s1 := s.(hist := s.hist.(batches := b + 1, accepted := s.hist.accepted + NewAccepted(msgs, b)));
    var queue := s.queues[q].(waiting := s.queues[q].waiting + tasks);
    SetQueueEffect(s1, q, queue, t);
    CountAppend(s.queues[q].waiting, tasks, ByTicket(t));
    CountAppend(s.queues[q].waiting, tasks, ByOwner(t));
    CountAppend(s.queues[q].waiting, tasks, OnWire(t));
    WireSeesNoWaiting(tasks, t);
    NewTasksCount(msgs, n, b, t);
    DrainKeepsBooks(SetQueue(s1, q, queue));
  }

  lemma SendBalanced(s: State, msgs: seq<Message>)
    requires Balanced(s, [], [])
    ensures Balanced(SendMessages(s, msgs), [], [])
  {
    if !HasQueue(s) {
      SendRejectedBalanced(s, msgs);
    } else {
      forall t: nat { AcceptEffect(s, msgs, t); }
      assert SendMessages(s, msgs).hist.handed == s.hist.handed;
    }
  }

  lemma SameBooksBalanced(s: State, s': State)
    requires SameBooks(s, s') && Balanced(s, [], [])
    ensures Balanced(s', [], [])
  {
    assert forall t: nat :: Placed(s', t) == Placed(s, t) && Owned(s', t) == Owned(s, t)
                         && Outcomes(s', t) == Outcomes(s, t) && Expected(s', t) == Expected(s, t);
  }

  /** Emptying a queue into the flushed tickets. */
  lemma EmptyingBalanced(s: State, q: nat)
    requires q < |s.queues| && Balanced(s, [], [])
    ensures Balanced(KillQueue(s, q), [], [])
  {
    var ws := s.queues[q].waiting;
    var s1 := s.(hist := s.hist.(flushed := s.hist.flushed + ws));
    var queue := s.queues[q].(waiting := [], drains := false);
    forall t: nat
      ensures Placed(SetQueue(s1, q, queue), t) == Placed(s, t) && Owned(SetQueue(s1, q, queue), t) == Owned(s, t)
      ensures Outcomes(SetQueue(s1, q, queue), t) == Outcomes(s, t)
      ensures Expected(SetQueue(s1, q, queue), t) == Expected(s, t)
    {
      SetQueueEffect(s1, q, queue, t);
      CountAppend(s.hist.flushed, ws, ByTicket(t));
      CountAppend(s.hist.flushed, ws, ByOwner(t));
      WireSeesNoWaiting(ws, t);
    }
  }

  lemma FlushBalanced(s: State, q: nat)
    requires q < |s.queues| && Balanced(s, [], [])
    ensures Balanced(Flush(s, q), [], [])
  {
    var s1 := if s.queues[q].drains then DrainHandler(s) else s;
    SameBooksBalanced(s, s1);
    EmptyingBalanced(s1, q);
  }

  lemma DisconnectBalanced(s: State, flush: bool)
    requires Balanced(s, [], [])
    ensures Balanced(DisconnectNow(s, flush), [], [])
  {
    var s1 := s;
    if flush && HasQueue(s) && |s.queues[s.sendingQueue.value].waiting| > 0 {
      s1 := Flush(s, s.sendingQueue.value);
      FlushBalanced(s, s.sendingQueue.value);
    }
    SameBooksBalanced(s1, DisconnectNow(s, flush));
  }

  lemma ConnectBalanced(s: State, conf: Conf, outcome: ConnectOutcome)
    requires Balanced(s, [], [])
    ensures Balanced(ConnectNow(s, conf, outcome), [], [])
  {
    if outcome == EndpointThrows {
      SameBooksBalanced(s, ConnectNow(s, conf, outcome));
    } else {
      var s1 := CreateQueue(s, conf);
      forall t: nat
        ensures Placed(s1, t) == Placed(s, t) && Owned(s1, t) == Owned(s, t)
        ensures Outcomes(s1, t) == Outcomes(s, t) && Expected(s1, t) == Expected(s, t)
      {
        HeldAppend(s.queues, EMPTY_QUEUE, ByTicket(t));
        HeldAppend(s.queues, EMPTY_QUEUE, ByOwner(t));
        HeldAppend(s.queues, EMPTY_QUEUE, OnWire(t));
      }
      if IsConnected(s) {
        DisconnectBalanced(s1, true);
        SameBooksBalanced(DisconnectNow(s1, true), ConnectNow(s, conf, outcome));
      } else {
        SameBooksBalanced(s1, ConnectNow(s, conf, outcome));
      }
    }
  }

  lemma PauseBalanced(s: State, paused: bool)
    requires Balanced(s, [], [])
    ensures Balanced(SetPaused(s, paused), [], [])
  {
    if HasQueue(s) {
      var k := s.sendingQueue.value;
      forall t: nat { SetQueueEffect(s, k, s.queues[k].(paused := paused), t); }
    }
  }

  lemma StepBalanced(s: State, e: Event)
    requires Balanced(s, [], [])
    ensures Balanced(Step(s, e), [], [])
  {
    if Enabled(s, e) {
      match e
      case Connect(conf, outcome) => ConnectBalanced(s, conf, outcome);
      case ConnectResumes(_, _) => SameBooksBalanced(s, Do(s, e));
      case Disconnect(flush) => DisconnectBalanced(s, flush);
      case Send(msgs) => SendBalanced(s, msgs);
      case Dispatch(q) => DispatchBalanced(s, q);
      case PollTick(q) => FlightBalanced(s, q, e);
      case SendDone(q, _) => FlightBalanced(s, q, e);
      case SocketOpen(k) => SameBooksBalanced(s, SetReady(s, k, OPEN)); PauseBalanced(SetReady(s, k, OPEN), false);
      case SocketClosing(k) => SameBooksBalanced(s, Do(s, e));
      case SocketClose(k) => SameBooksBalanced(s, SetReady(s, k, CLOSED)); PauseBalanced(SetReady(s, k, CLOSED), true);
      case SocketError(_) => PauseBalanced(s, true);
      case DrainTimer(h) =>
        SameBooksBalanced(s, s.(liveTimers := s.liveTimers - {h}));
        DisconnectBalanced(s.(liveTimers := s.liveTimers - {h}), true);
    }
  }

  lemma {:induction false} RunBalanced(s: State, es: seq<Event>)
    requires Balanced(s, [], [])
    ensures Balanced(Run(s, es), [], [])
    decreases |es|
  {
    if es != [] {
      StepBalanced(s, es[0]);
      RunBalanced(Step(s, es[0]), es[1..]);
    }
  }

  lemma InitBalanced()
    ensures Balanced(INIT, [], [])
  {
  }

  // ---------- the main results ----------

  /** Conservation: after any run, each accepted message is in exactly one place (sent, failed, refused, flushed,
      running or waiting in some queue) and no other message is anywhere. */
  lemma Conservation(es: seq<Event>, t: nat)
    ensures Placed(Run(INIT, es), t) == if t < |Run(INIT, es).hist.accepted| then 1 else 0
  {
    InitBalanced();
    RunBalanced(INIT, es);
    assert Placed(Run(INIT, es), t) + Count([], ByTicket(t)) == Expected(Run(INIT, es), t);
  }

  /** No message is given to the socket twice, and one that waits in a queue or polls was never given to it. */
  lemma HandedAtMostOnce(es: seq<Event>, t: nat)
    ensures var s := Run(INIT, es);
            && Count(s.hist.handed, ByTicket(t)) <= 1
            && (Count(s.hist.sent, ByTicket(t)) == 1 ==> Count(s.hist.handed, ByTicket(t)) == 1)
            && forall q: nat :: q < |s.queues| && HeldBy(s.queues[q], ByTicket(t)) > HeldBy(s.queues[q], OnWire(t))
                                ==> Count(s.hist.handed, ByTicket(t)) == 0
  {
    var s := Run(INIT, es);
    InitBalanced();
    RunBalanced(INIT, es);
    assert Placed(s, t) + Count([], ByTicket(t)) == Expected(s, t);
    assert Count(s.hist.handed, ByTicket(t)) == Outcomes(s, t);
    WireIsHeld(s.queues, t);
    forall q: nat | q < |s.queues| && HeldBy(s.queues[q], ByTicket(t)) > HeldBy(s.queues[q], OnWire(t))
      ensures Count(s.hist.handed, ByTicket(t)) == 0
    {
      StrictlyHeld(s.queues, q, t);
    }
  }

  lemma WireIsHeldBy(q: Queue, t: nat)
    ensures HeldBy(q, OnWire(t)) <= HeldBy(q, ByTicket(t))
  {
    WireSeesNoWaiting(q.waiting, t);
  }

  lemma {:induction false} WireIsHeld(qs: seq<Queue>, t: nat)
    ensures Held(qs, OnWire(t)) <= Held(qs, ByTicket(t))
  {
    if qs != [] {
      WireIsHeldBy(qs[0], t);
      WireIsHeld(qs[1..], t);
    }
  }

  lemma {:induction false} StrictlyHeld(qs: seq<Queue>, q: nat, t: nat)
    requires q < |qs| && HeldBy(qs[q], ByTicket(t)) > HeldBy(qs[q], OnWire(t))
    ensures Held(qs, OnWire(t)) < Held(qs, ByTicket(t))
  {
    WireIsHeldBy(qs[0], t);
    if q == 0 {
      WireIsHeld(qs[1..], t);
    } else {
      StrictlyHeld(qs[1..], q - 1, t);
    }
  }

  /** Each accepted task's own callback has run once, is lost in a flush, or is still carried by exactly one task. */
  lemma CallbackAccounting(es: seq<Event>, t: nat)
    ensures var s := Run(INIT, es);
            RanFor(s.hist.ran, t) + Count(s.hist.flushed, ByOwner(t)) + Held(s.queues, ByOwner(t))
            == if t < |s.hist.accepted| then 1 else 0
  {
    InitBalanced();
    RunBalanced(INIT, es);
    assert Owned(Run(INIT, es), t) + Count([], ByOwner(t)) == Expected(Run(INIT, es), t);
  }
}
