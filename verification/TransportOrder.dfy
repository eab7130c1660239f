/** Order within one queue lifetime: from a `connect` on a quiet transport up to the next `connect`,
    through put-backs, pauses, flushes and disconnects. */
module TransportOrder {
  import opened Wrappers
  import opened TransportModel
  import opened TransportBalance
  import opened TransportOutcome

  // ---------- tickets in order ----------

  function Tickets(ts: seq<Task>): (r: seq<nat>)
    ensures |r| == |ts|
  {
    seq(|ts|, i requires 0 <= i < |ts| => ts[i].ticket)
  }

  function TicketSet(ts: seq<Task>): set<nat> {
    set k | k in ts :: k.ticket
  }

  /** Tickets of messages that will never be sent. */
  function Gone(h: History): set<nat> {
    TicketSet(h.sendFailed) + TicketSet(h.refused) + TicketSet(h.flushed)
  }

  /** The tickets lo, lo+1, .., hi-1 without those in `gone`. */
  function Minus(lo: nat, hi: nat, gone: set<nat>): seq<nat> {
    if hi <= lo then [] else Minus(lo, hi - 1, gone) + if hi - 1 in gone then [] else [hi - 1]
  }

  function Filter(xs: seq<nat>, gone: set<nat>): seq<nat> {
    if xs == [] then [] else Filter(xs[..|xs| - 1], gone) + if xs[|xs| - 1] in gone then [] else [xs[|xs| - 1]]
  }

  lemma {:induction false} MinusSorted(lo: nat, hi: nat, gone: set<nat>)
    ensures forall i :: 0 <= i < |Minus(lo, hi, gone)| ==> lo <= Minus(lo, hi, gone)[i] < hi
    ensures forall i, j :: 0 <= i < j < |Minus(lo, hi, gone)| ==> Minus(lo, hi, gone)[i] < Minus(lo, hi, gone)[j]
  {
    if hi > lo { MinusSorted(lo, hi - 1, gone); }
  }

  lemma {:induction false} MinusMore(lo: nat, hi: nat, gone: set<nat>, more: set<nat>)
    ensures Minus(lo, hi, gone + more) == Filter(Minus(lo, hi, gone), more)
  {
    if hi > lo {
      MinusMore(lo, hi - 1, gone, more);
      var xs := Minus(lo, hi - 1, gone);
      if hi - 1 !in gone {
        assert (xs + [hi - 1])[..|xs|] == xs;
      } else {
        assert xs + [] == xs;
      }
    }
  }

  lemma {:induction false} FilterAppend(a: seq<nat>, b: seq<nat>, gone: set<nat>)
    ensures Filter(a + b, gone) == Filter(a, gone) + Filter(b, gone)
  {
    if b == [] {
      assert a + b == a;
    } else {
      var n := |b| - 1;
      assert (a + b)[..|a + b| - 1] == a + b[..n];
      FilterAppend(a, b[..n], gone);
    }
  }

  lemma {:induction false} FilterKeeps(xs: seq<nat>, gone: set<nat>)
    requires forall x :: x in xs ==> x !in gone
    ensures Filter(xs, gone) == xs
  {
    if xs != [] {
      FilterKeeps(xs[..|xs| - 1], gone);
      assert xs == xs[..|xs| - 1] + [xs[|xs| - 1]];
    }
  }

  lemma {:induction false} FilterDrops(xs: seq<nat>, gone: set<nat>)
    requires forall x :: x in xs ==> x in gone
    ensures Filter(xs, gone) == []
  {
    if xs != [] { FilterDrops(xs[..|xs| - 1], gone); }
  }

  lemma TicketsAppend(a: seq<Task>, b: seq<Task>)
    ensures Tickets(a + b) == Tickets(a) + Tickets(b)
  {
  }

  lemma TicketsMembers(ts: seq<Task>, x: nat)
    ensures x in Tickets(ts) <==> x in TicketSet(ts)
  {
    if x in Tickets(ts) {
      var i :| 0 <= i < |ts| && Tickets(ts)[i] == x;
      assert ts[i] in ts;
    }
    if x in TicketSet(ts) {
      var k :| k in ts && k.ticket == x;
      var i :| 0 <= i < |ts| && ts[i] == k;
      assert Tickets(ts)[i] == x;
    }
  }

  /** Of a strictly increasing sequence, the middle part shares nothing with the ends. */
  lemma MiddleApart(xs: seq<nat>, a: seq<nat>, x: seq<nat>, b: seq<nat>, n: nat)
    requires xs == a + x + b && n in x
    requires forall i, j :: 0 <= i < j < |xs| ==> xs[i] < xs[j]
    ensures n !in a && n !in b
  {
    var j :| 0 <= j < |x| && x[j] == n;
    assert xs[|a| + j] == n;
    forall i | 0 <= i < |a| ensures a[i] != n { assert xs[i] == a[i]; }
    forall i | 0 <= i < |b| ensures b[i] != n { assert xs[|a| + |x| + i] == b[i]; }
  }

  lemma FilterMiddle(a: seq<nat>, x: seq<nat>, b: seq<nat>, gone: set<nat>)
    requires forall n :: n in a ==> n !in gone
    requires forall n :: n in b ==> n !in gone
    requires forall n :: n in x ==> n in gone
    ensures Filter(a + x + b, gone) == a + b
  {
    calc {
      Filter(a + x + b, gone);
      { FilterAppend(a + x, b, gone); }
      Filter(a + x, gone) + Filter(b, gone);
      { FilterAppend(a, x, gone); FilterKeeps(b, gone); }
      Filter(a, gone) + Filter(x, gone) + b;
      { FilterKeeps(a, gone); FilterDrops(x, gone); }
      a + [] + b;
      a + b;
    }
  }

  /** Dropping a stretch of the line. */
  lemma DropFromLine(lo: nat, hi: nat, gone: set<nat>, a: seq<Task>, x: seq<Task>, b: seq<Task>)
    requires Minus(lo, hi, gone) == Tickets(a + x + b)
    ensures Minus(lo, hi, gone + TicketSet(x)) == Tickets(a + b)
  {
    TicketsAppend(a + x, b);
    TicketsAppend(a, x);
    TicketsAppend(a, b);
    MinusSorted(lo, hi, gone);
    MinusMore(lo, hi, gone, TicketSet(x));
    var xs, ta, tx, tb := Minus(lo, hi, gone), Tickets(a), Tickets(x), Tickets(b);
    forall n ensures n in TicketSet(x) <==> n in tx { TicketsMembers(x, n); }
    forall n | n in tx ensures n !in ta && n !in tb { MiddleApart(xs, ta, tx, tb, n); }
    FilterMiddle(ta, tx, tb, TicketSet(x));
  }

  // ---------- the invariant of one lifetime ----------

  function Running(q: Queue): seq<Task> {
    if q.flight.Some? then [q.flight.value.task] else []
  }

  /** Sent since the lifetime began, then in hand, then running, then waiting. */
  function Line(s: State, q: nat, sentBefore: nat, inHand: seq<Task>): seq<Task>
    requires q < |s.queues| && sentBefore <= |s.hist.sent|
  {
    s.hist.sent[sentBefore..] + inHand + (Running(s.queues[q]) + s.queues[q].waiting)
  }

  /** `q` is the only queue with work, and the only one messages can enter. */
  ghost predicate Alone(s: State, q: nat) {
    && q < |s.queues| && s.resuming == 0
    && (s.sendingQueue == None || s.sendingQueue == Some(q))
    && forall k: nat :: k < |s.queues| && k != q ==> Idle(s.queues[k])
  }

  ghost predicate InLine(s: State, q: nat, first: nat, sentBefore: nat, inHand: seq<Task>) {
    && Alone(s, q) && sentBefore <= |s.hist.sent| && first <= |s.hist.accepted|
    && Minus(first, |s.hist.accepted|, Gone(s.hist)) == Tickets(Line(s, q, sentBefore, inHand))
  }

  ghost predicate SameLine(s: State, s': State, q: nat) {
    && s'.queues == s.queues && s'.resuming == s.resuming
    && (s'.sendingQueue == s.sendingQueue || s'.sendingQueue == None)
    && s'.hist.accepted == s.hist.accepted && s'.hist.sent == s.hist.sent && Gone(s'.hist) == Gone(s.hist)
  }

  lemma TicketSetAppend(a: seq<Task>, b: seq<Task>)
    ensures TicketSet(a + b) == TicketSet(a) + TicketSet(b)
  {
    forall x ensures x in TicketSet(a + b) <==> x in TicketSet(a) || x in TicketSet(b) {
      TicketsMembers(a + b, x);
      TicketsMembers(a, x);
      TicketsMembers(b, x);
      TicketsAppend(a, b);
    }
  }

  lemma FinishSameLine(s: State, q: nat, j: nat, task: Task, ok: bool)
    requires j < |s.queues|
    ensures SameLine(s, Finish(s, j, task, ok), q)
  {
  }

  lemma DropInHand(s: State, s1: State, q: nat, first: nat, sentBefore: nat, task: Task)
    requires InLine(s, q, first, sentBefore, [task])
    requires s1.queues == s.queues && s1.resuming == s.resuming && s1.sendingQueue == s.sendingQueue
    requires s1.hist.accepted == s.hist.accepted && s1.hist.sent == s.hist.sent
    requires Gone(s1.hist) == Gone(s.hist) + TicketSet([task])
    ensures InLine(s1, q, first, sentBefore, [])
  {
    var sent, rest := s.hist.sent[sentBefore..], Running(s.queues[q]) + s.queues[q].waiting;
    DropFromLine(first, |s.hist.accepted|, Gone(s.hist), sent, [task], rest);
    assert Line(s1, q, sentBefore, []) == sent + rest;
  }

  lemma RefuseInLine(s: State, q: nat, first: nat, sentBefore: nat, task: Task)
    requires InLine(s, q, first, sentBefore, [task])
    ensures InLine(Refuse(s, q, task), q, first, sentBefore, [])
  {
    var s1 := s.(hist := s.hist.(refused := s.hist.refused + [task]));
    TicketSetAppend(s.hist.refused, [task]);
    assert Gone(s1.hist) == Gone(s.hist) + TicketSet([task]);
    DropInHand(s, s1, q, first, sentBefore, task);
    FinishSameLine(s1, q, q, task, false);
  }

  lemma SendCompletesInLine(s: State, q: nat, first: nat, sentBefore: nat, task: Task, ok: bool)
    requires InLine(s, q, first, sentBefore, [task]) && s.queues[q].flight == None
    ensures InLine(SendCompletes(s, q, task, ok), q, first, sentBefore, [])
  {
    if ok {
      var s1 := s.(hist := s.hist.(sent := s.hist.sent + [task]));
      assert Line(s1, q, sentBefore, []) == Line(s, q, sentBefore, [task]);
      assert InLine(s1, q, first, sentBefore, []);
      FinishSameLine(s1, q, q, task, ok);
    } else {
      var s1 := s.(hist := s.hist.(sendFailed := s.hist.sendFailed + [task]));
      TicketSetAppend(s.hist.sendFailed, [task]);
      assert Gone(s1.hist) == Gone(s.hist) + TicketSet([task]);
      DropInHand(s, s1, q, first, sentBefore, task);
      FinishSameLine(s1, q, q, task, ok);
    }
  }

  /** Put back in front of its own queue, the task keeps its place in the line. */
  lemma PutBackInLine(s: State, q: nat, first: nat, sentBefore: nat, task: Task)
    requires InLine(s, q, first, sentBefore, [task]) && s.queues[q].flight == None && HasQueue(s)
    ensures InLine(PutBack(s, q, task), q, first, sentBefore, [])
  {
    var s1 := SetQueue(s, q, s.queues[q].(waiting := [Requeued(task)] + s.queues[q].waiting));
    assert Tickets(Line(s1, q, sentBefore, [])) == Tickets(Line(s, q, sentBefore, [task]));
    FinishSameLine(s1, q, q, task, false);
  }

  lemma WaitInLine(s: State, q: nat, first: nat, sentBefore: nat, task: Task, socket: nat, retries: int)
    requires InLine(s, q, first, sentBefore, [task]) && s.queues[q].flight == None
    ensures InLine(Wait(s, q, task, socket, retries), q, first, sentBefore, [])
  {
    match Poll(IsOpen(s, socket), retries)
    case Sleep(r) =>
      assert Line(Wait(s, q, task, socket, retries), q, sentBefore, []) == Line(s, q, sentBefore, [task]);
    case TimedOut =>
      if !HasQueue(s) {
        RefuseInLine(s, q, first, sentBefore, task);
      } else {
        PutBackInLine(s, q, first, sentBefore, task);
      }
    case Opened =>
      if s.ws == None {
        RefuseInLine(s, q, first, sentBefore, task);
      } else {
        assert Line(Wait(s, q, task, socket, retries), q, sentBefore, []) == Line(s, q, sentBefore, [task]);
        assert Gone(Wait(s, q, task, socket, retries).hist) == Gone(s.hist);
      }
  }

  lemma QueueStepInLine(s: State, e: Event, q: nat, first: nat, sentBefore: nat)
    requires InLine(s, q, first, sentBefore, []) && Enabled(s, e) && (e.Dispatch? || e.PollTick? || e.SendDone?)
    ensures InLine(Do(s, e), q, first, sentBefore, [])
  {
    assert e.queue == q;
    match e
    case Dispatch(_) =>
      var task, s1 := s.queues[q].waiting[0], TakeNext(s, q);
      assert Line(s1, q, sentBefore, [task]) == Line(s, q, sentBefore, []);
      if s.ws == None { RefuseInLine(s1, q, first, sentBefore, task); }
      else { WaitInLine(s1, q, first, sentBefore, task, s.ws.value, MaxRetries(s.conf)); }
    case PollTick(_) =>
      var f, s1 := s.queues[q].flight.value, SetFlight(s, q, None);
      assert Line(s1, q, sentBefore, [f.task]) == Line(s, q, sentBefore, []);
      WaitInLine(s1, q, first, sentBefore, f.task, f.phase.socket, f.phase.retries);
    case SendDone(_, ok) =>
      var f, s1 := s.queues[q].flight.value, SetFlight(s, q, None);
      assert Line(s1, q, sentBefore, [f.task]) == Line(s, q, sentBefore, []);
      SendCompletesInLine(s1, q, first, sentBefore, f.task, ok);
  }

  lemma {:induction false} NewTickets(msgs: seq<Message>, first: nat, batch: nat, lo: nat, gone: set<nat>)
    requires lo <= first && forall t :: t in gone ==> t < first
    ensures Minus(lo, first + |msgs|, gone) == Minus(lo, first, gone) + Tickets(NewTasks(msgs, first, batch))
  {
    NewTicketsAre(msgs, first, batch);
    MinusExtends(lo, first, |msgs|, gone);
    assert Tickets(NewTasks(msgs, first, batch)) == seq(|msgs|, i => first + i);
  }

  lemma {:induction false} NewTicketsAre(msgs: seq<Message>, first: nat, batch: nat)
    ensures |NewTasks(msgs, first, batch)| == |msgs|
    ensures forall i :: 0 <= i < |msgs| ==> NewTasks(msgs, first, batch)[i] == Task(first + i, msgs[i], Caller(batch))
  {
    if msgs != [] { NewTicketsAre(msgs[1..], first + 1, batch); }
  }

  lemma {:induction false} MinusExtends(lo: nat, first: nat, n: nat, gone: set<nat>)
    requires lo <= first && forall t :: t in gone ==> t < first
    ensures Minus(lo, first + n, gone) == Minus(lo, first, gone) + seq(n, i => first + i)
  {
    if n > 0 {
      MinusExtends(lo, first, n - 1, gone);
      assert seq(n, i => first + i) == seq(n - 1, i => first + i) + [first + n - 1];
    }
  }

  lemma GoneBelow(h: History)
    requires BooksFit(h)
    ensures forall t :: t in Gone(h) ==> t < |h.accepted|
  {
    forall t | t in Gone(h) ensures t < |h.accepted| {
      var k :| (k in h.sendFailed || k in h.refused || k in h.flushed) && k.ticket == t;
      assert Fits(h.accepted, k);
    }
  }

  lemma JoinsLine(s: State, msgs: seq<Message>, q: nat, sentBefore: nat)
    requires Alone(s, q) && sentBefore <= |s.hist.sent| && HasQueue(s)
    ensures var s' := SendMessages(s, msgs);
            && Alone(s', q) && s'.hist.sent == s.hist.sent && Gone(s'.hist) == Gone(s.hist)
            && |s'.hist.accepted| == |s.hist.accepted| + |msgs|
            && Line(s', q, sentBefore, [])
               == Line(s, q, sentBefore, []) + NewTasks(msgs, |s.hist.accepted|, s.hist.batches)
  {
  }

  lemma SendInLine(s: State, msgs: seq<Message>, q: nat, first: nat, sentBefore: nat)
    requires InLine(s, q, first, sentBefore, []) && BooksFit(s.hist)
    ensures InLine(SendMessages(s, msgs), q, first, sentBefore, [])
  {
    if HasQueue(s) {
      var n, b := |s.hist.accepted|, s.hist.batches;
      GoneBelow(s.hist);
      NewTickets(msgs, n, b, first, Gone(s.hist));
      JoinsLine(s, msgs, q, sentBefore);
      TicketsAppend(Line(s, q, sentBefore, []), NewTasks(msgs, n, b));
    } else {
      assert SameLine(s, SendMessages(s, msgs), q);
    }
  }

  lemma FlushMoves(s: State, q: nat)
    requires q < |s.queues|
    ensures var s' := Flush(s, q);
            && s'.queues == s.queues[q := s.queues[q].(waiting := [], drains := false)]
            && s'.resuming == s.resuming && s'.sendingQueue == s.sendingQueue
            && s'.hist == s.hist.(flushed := s.hist.flushed + s.queues[q].waiting)
            && Gone(s'.hist) == Gone(s.hist) + TicketSet(s.queues[q].waiting)
  {
    TicketSetAppend(s.hist.flushed, s.queues[q].waiting);
  }

  lemma FlushInLine(s: State, q: nat, first: nat, sentBefore: nat)
    requires InLine(s, q, first, sentBefore, [])
    ensures InLine(Flush(s, q), q, first, sentBefore, [])
  {
    var s', ws := Flush(s, q), s.queues[q].waiting;
    FlushMoves(s, q);
    var front := s.hist.sent[sentBefore..] + Running(s.queues[q]);
    assert Line(s, q, sentBefore, []) == front + ws + [];
    DropFromLine(first, |s.hist.accepted|, Gone(s.hist), front, ws, []);
    assert Line(s', q, sentBefore, []) == front + [];
  }

  lemma DisconnectInLine(s: State, flush: bool, q: nat, first: nat, sentBefore: nat)
    requires InLine(s, q, first, sentBefore, [])
    ensures InLine(DisconnectNow(s, flush), q, first, sentBefore, [])
  {
    var s1 := s;
    if flush && HasQueue(s) && |s.queues[s.sendingQueue.value].waiting| > 0 {
      FlushInLine(s, q, first, sentBefore);
      s1 := Flush(s, q);
    }
    assert SameLine(s1, DisconnectNow(s, flush), q);
  }

  lemma PauseInLine(s: State, paused: bool, q: nat, first: nat, sentBefore: nat)
    requires InLine(s, q, first, sentBefore, [])
    ensures InLine(SetPaused(s, paused), q, first, sentBefore, [])
  {
    assert Line(SetPaused(s, paused), q, sentBefore, []) == Line(s, q, sentBefore, []);
  }

  lemma StepInLine(s: State, e: Event, q: nat, first: nat, sentBefore: nat)
    requires InLine(s, q, first, sentBefore, []) && BooksFit(s.hist) && !e.Connect?
    ensures InLine(Step(s, e), q, first, sentBefore, [])
  {
    if Enabled(s, e) {
      match e
      case ConnectResumes(_, _) =>
      case Disconnect(flush) => DisconnectInLine(s, flush, q, first, sentBefore);
      case Send(msgs) => SendInLine(s, msgs, q, first, sentBefore);
      case Dispatch(_) => QueueStepInLine(s, e, q, first, sentBefore);
      case PollTick(_) => QueueStepInLine(s, e, q, first, sentBefore);
      case SendDone(_, _) => QueueStepInLine(s, e, q, first, sentBefore);
      case SocketOpen(k) =>
        assert SameLine(s, SetReady(s, k, OPEN), q);
        PauseInLine(SetReady(s, k, OPEN), false, q, first, sentBefore);
      case SocketClosing(k) => assert SameLine(s, Do(s, e), q);
      case SocketClose(k) =>
        assert SameLine(s, SetReady(s, k, CLOSED), q);
        PauseInLine(SetReady(s, k, CLOSED), true, q, first, sentBefore);
      case SocketError(_) => PauseInLine(s, true, q, first, sentBefore);
      case DrainTimer(h) =>
        var s1 := s.(liveTimers := s.liveTimers - {h});
        assert SameLine(s, s1, q);
        DisconnectInLine(s1, true, q, first, sentBefore);
    }
  }

  ghost predicate NoConnect(es: seq<Event>) {
    forall e :: e in es ==> !e.Connect?
  }

  lemma {:induction false} RunInLine(s: State, es: seq<Event>, q: nat, first: nat, sentBefore: nat)
    requires InLine(s, q, first, sentBefore, []) && Valid(s) && NoConnect(es)
    ensures InLine(Run(s, es), q, first, sentBefore, [])
    decreases |es|
  {
    if es != [] {
      StepInLine(s, es[0], q, first, sentBefore);
      StepValid(s, es[0]);
      RunInLine(Step(s, es[0]), es[1..], q, first, sentBefore);
    }
  }

  // ---------- the main result ----------

  /** Nothing is queued or running, no `connect` is suspended, and the transport is not connected. */
  ghost predicate Quiet(s: State) {
    && s.resuming == 0 && !IsConnected(s)
    && forall k :: 0 <= k < |s.queues| ==> Idle(s.queues[k])
  }

  lemma ConnectInLine(s: State, conf: Conf, outcome: ConnectOutcome)
    requires Quiet(s) && outcome != EndpointThrows
    ensures InLine(ConnectNow(s, conf, outcome), |s.queues|, |s.hist.accepted|, |s.hist.sent|, [])
  {
  }

  /** In every state of a lifetime that began on a quiet transport, the accepted messages without the dropped and
      flushed ones are, in order: those sent, the running one, those waiting. */
  lemma LifetimeOrder(before: seq<Event>, conf: Conf, outcome: ConnectOutcome, es: seq<Event>)
    requires Quiet(Run(INIT, before)) && outcome != EndpointThrows && NoConnect(es)
    ensures var s0 := Run(INIT, before);
            var s := Run(Step(s0, Connect(conf, outcome)), es);
            Ordered(s, |s0.queues|, |s0.hist.accepted|, |s0.hist.sent|)
  {
    var s0 := Run(INIT, before);
    RunValid(INIT, before);
    StepValid(s0, Connect(conf, outcome));
    ConnectInLine(s0, conf, outcome);
    var s1, q, sb := Step(s0, Connect(conf, outcome)), |s0.queues|, |s0.hist.sent|;
    RunInLine(s1, es, q, |s0.hist.accepted|, sb);
    LineIsOrdered(Run(s1, es), q, |s0.hist.accepted|, sb);
  }

  /** The tickets accepted from `first` on, without the gone ones, are those sent, the running one, those waiting. */
  ghost predicate Ordered(s: State, q: nat, first: nat, sentBefore: nat) {
    && q < |s.queues| && sentBefore <= |s.hist.sent|
    && Minus(first, |s.hist.accepted|, Gone(s.hist))
       == Tickets(s.hist.sent[sentBefore..] + Running(s.queues[q]) + s.queues[q].waiting)
  }

  lemma LineIsOrdered(s: State, q: nat, first: nat, sentBefore: nat)
    requires InLine(s, q, first, sentBefore, [])
    ensures Ordered(s, q, first, sentBefore)
  {
    assert Line(s, q, sentBefore, []) == s.hist.sent[sentBefore..] + Running(s.queues[q]) + s.queues[q].waiting;
  }

  // ---------- a task of another queue ----------

  ghost predicate Increasing(xs: seq<nat>) {
    forall i, j :: 0 <= i < j < |xs| ==> xs[i] < xs[j]
  }

  lemma InsertIncreasing(a: seq<nat>, x: nat, b: seq<nat>)
    requires Increasing(a + b)
    ensures Increasing(a + [x] + b) <==> (forall y :: y in a ==> y < x) && (forall y :: y in b ==> x < y)
  {
    var xs, ys := a + [x] + b, a + b;
    if Increasing(xs) {
      forall y | y in a ensures y < x {
        var i :| 0 <= i < |a| && a[i] == y;
        assert xs[i] < xs[|a|];
      }
      forall y | y in b ensures x < y {
        var i :| 0 <= i < |b| && b[i] == y;
        assert xs[|a|] < xs[|a| + 1 + i];
      }
    }
    if (forall y :: y in a ==> y < x) && (forall y :: y in b ==> x < y) {
      forall i, j | 0 <= i < j < |xs| ensures xs[i] < xs[j] {
        if i == |a| {
          assert xs[j] == b[j - |a| - 1] && xs[j] in b;
        } else if j == |a| {
          assert xs[i] == a[i] && xs[i] in a;
        } else {
          var h, k := if i < |a| then i else i - 1, if j < |a| then j else j - 1;
          assert ys[h] == xs[i] && ys[k] == xs[j] && h < k;
        }
      }
    }
  }

  /** What a put-back into another queue does to the order there: the line of the queue the transport has now stays in
      the order of acceptance if and only if the message is younger than all that this line has sent or is running,
      and older than all that waits in it. */
  lemma PutBackKeepsOrderIff(s: State, j: nat, task: Task, q: nat, sentBefore: nat)
    requires s.sendingQueue == Some(q) && q < |s.queues| && j < |s.queues| && sentBefore <= |s.hist.sent|
    requires Increasing(Tickets(Line(s, q, sentBefore, [])))
    ensures var s', past := PutBack(s, j, task), s.hist.sent[sentBefore..] + Running(s.queues[q]);
            Increasing(Tickets(Line(s', q, sentBefore, [])))
            <==> (forall n :: n in Tickets(past) ==> n < task.ticket)
                 && (forall n :: n in Tickets(s.queues[q].waiting) ==> task.ticket < n)
  {
    var s1 := SetQueue(s, q, s.queues[q].(waiting := [Requeued(task)] + s.queues[q].waiting));
    FinishSameLine(s1, q, j, task, false);
    var past, ws := s.hist.sent[sentBefore..] + Running(s.queues[q]), s.queues[q].waiting;
    assert Tickets(Line(s, q, sentBefore, [])) == Tickets(past) + Tickets(ws);
    assert Tickets(Line(s1, q, sentBefore, [])) == Tickets(past) + [task.ticket] + Tickets(ws);
    InsertIncreasing(Tickets(past), task.ticket, Tickets(ws));
  }
}
