/** Exactly which accepted messages can still be handed to the socket: all but the dead ones. */
module TransportHandOver {
  import opened Wrappers
  import opened TransportModel
  import opened TransportBalance
  import opened TransportOutcome
  import opened TransportQuiescence
  import opened TransportDelivery
  import opened TransportReach

  lemma {:induction false} RunAppend(s: State, a: seq<Event>, b: seq<Event>)
    ensures Run(s, a + b) == Run(Run(s, a), b)
    decreases |a|
  {
    if a == [] {
      assert a + b == b;
    } else {
      assert (a + b)[1..] == a[1..] + b;
      RunAppend(Step(s, a[0]), a[1..], b);
    }
  }

  lemma RunOne(s: State, e: Event)
    ensures Run(s, [e]) == Step(s, e)
  {
    assert [e][1..] == [];
    assert Run(s, [e]) == Run(Step(s, e), []);
  }

  lemma RunTwo(s: State, a: Event, b: Event)
    ensures Run(s, [a, b]) == Step(Step(s, a), b)
  {
    RunOne(s, a);
    RunOne(Step(s, a), b);
    RunAppend(s, [a], [b]);
    assert [a] + [b] == [a, b];
  }

  // ---------- what a run towards a hand-over keeps ----------

  ghost predicate LastIs(s: State, c: nat, w: Task) {
    c < |s.queues| && s.queues[c].waiting != [] && s.queues[c].waiting[|s.queues[c].waiting| - 1] == w
  }

  /** The last waiting task of each queue stays the last one, unless it is the one to be handed over. */
  ghost predicate LastsKept(s: State, s': State, t: nat) {
    forall c: nat, w: Task :: LastIs(s, c, w) && w.ticket != t ==> LastIs(s', c, w)
  }

  /** The transport's queue `n` is free to run on an open connection. */
  ghost predicate Free(s: State, n: nat) {
    s.sendingQueue == Some(n) && Flowing(s, n)
  }

  // ---------- reconnecting ----------

  const RETRY_CONF := Conf(LEAVE_OPEN, 0)

  function Reconnect(s: State): seq<Event> {
    [Disconnect(false), Connect(RETRY_CONF, SocketCreated), SocketOpen(|s.sockets|)]
  }

  lemma LetsGo(s: State)
    ensures var s' := Step(s, Disconnect(false));
            && s'.queues == s.queues && s'.hist == s.hist && |s'.sockets| == |s.sockets| && !IsConnected(s')
  {
  }

  lemma ConnectsAnew(s: State)
    requires !IsConnected(s)
    ensures var s' := Step(s, Connect(RETRY_CONF, SocketCreated));
            && s'.queues == s.queues + [EMPTY_QUEUE] && s'.hist == s.hist && s'.conf == Some(RETRY_CONF)
            && s'.sendingQueue == Some(|s.queues|)
            && s'.ws == Some(|s.sockets|) && s'.sockets == s.sockets + [CONNECTING]
  {
  }

  lemma Opens(s: State, k: nat, n: nat)
    requires k < |s.sockets| && s.sockets[k] == CONNECTING && s.ws == Some(k) && MaxRetries(s.conf) >= 0
    requires s.sendingQueue == Some(n) && n < |s.queues| && s.queues[n] == EMPTY_QUEUE
    ensures var s' := Step(s, SocketOpen(k)); Free(s', n) && s'.queues == s.queues && s'.hist == s.hist
  {
    assert s.queues[n := EMPTY_QUEUE] == s.queues;
  }

  /** Dropping the references without a flush and connecting anew opens a connection beside the older queues. */
  lemma Reconnects(s: State)
    ensures var s' := Run(s, Reconnect(s));
            Free(s', |s.queues|) && s'.queues == s.queues + [EMPTY_QUEUE] && s'.hist == s.hist
  {
    var d, c, o := Disconnect(false), Connect(RETRY_CONF, SocketCreated), SocketOpen(|s.sockets|);
    LetsGo(s);
    ConnectsAnew(Step(s, d));
    Opens(Step(Step(s, d), c), |s.sockets|, |s.queues|);
    RunTwo(s, d, c);
    RunOne(Step(Step(s, d), c), o);
    RunAppend(s, [d, c], [o]);
    assert [d, c] + [o] == Reconnect(s);
  }

  // ---------- ending a poll ----------

  predicate Polls(s: State, j: nat) {
    j < |s.queues| && s.queues[j].flight.Some? && s.queues[j].flight.value.phase.Polling?
  }

  /** The running task of `j` was handed over, or put in front of queue `n`. */
  ghost predicate PollEnded(s: State, s': State, j: nat, n: nat, task: Task)
    requires j < |s.queues| && n < |s.queues|
  {
    || (s'.queues == s.queues[j := s.queues[j].(flight := Some(Flight(task, Sending)))]
        && s'.hist.handed == s.hist.handed + [task])
    || (s'.queues == s.queues[j := s.queues[j].(flight := None)]
                             [n := s.queues[n].(waiting := [Requeued(task)] + s.queues[n].waiting)]
        && s'.hist.handed == s.hist.handed)
  }

  lemma PollsOnce(s: State, j: nat, n: nat)
    requires Free(s, n) && Polls(s, j) && j != n
    ensures var f, s' := s.queues[j].flight.value, Step(s, PollTick(j));
            && Free(s', n)
            && (PollEnded(s, s', j, n, f.task)
                || (f.phase.retries >= 0 && s'.hist == s.hist
                    && var asleep := Some(Flight(f.task, Polling(f.phase.socket, f.phase.retries - 1)));
                       s'.queues == s.queues[j := s.queues[j].(flight := asleep)]))
  {
    var f, s1 := s.queues[j].flight.value, SetFlight(s, j, None);
    assert Step(s, PollTick(j)) == Wait(s1, j, f.task, f.phase.socket, f.phase.retries);
    if Poll(IsOpen(s1, f.phase.socket), f.phase.retries) == TimedOut {
      var s2 := SetQueue(s1, n, s1.queues[n].(waiting := [Requeued(f.task)] + s1.queues[n].waiting));
      FinishFrame(s2, j, f.task, false);
      FinishHanded(s2, j, f.task, false);
    }
  }

  lemma FinishHanded(s: State, q: nat, task: Task, ok: bool)
    requires q < |s.queues|
    ensures Finish(s, q, task, ok).hist.handed == s.hist.handed
  {
  }

  lemma {:induction false} PollsOut(s: State, j: nat, n: nat) returns (es: seq<Event>)
    requires Free(s, n) && Polls(s, j) && j != n
    ensures NoSend(es)
    ensures Free(Run(s, es), n) && PollEnded(s, Run(s, es), j, n, s.queues[j].flight.value.task)
    decreases if s.queues[j].flight.value.phase.retries < 0 then 0 else s.queues[j].flight.value.phase.retries + 1
  {
    var s' := Step(s, PollTick(j));
    var task := s.queues[j].flight.value.task;
    PollsOnce(s, j, n);
    RunOne(s, PollTick(j));
    if PollEnded(s, s', j, n, task) {
      es := [PollTick(j)];
    } else {
      var rest := PollsOut(s', j, n);
      es := [PollTick(j)] + rest;
      RunAppend(s, [PollTick(j)], rest);
    }
  }

  lemma PollEndedKeeps(s: State, s': State, j: nat, n: nat, task: Task, t: nat)
    requires j < |s.queues| && n < |s.queues| && PollEnded(s, s', j, n, task)
    ensures LastsKept(s, s', t)
  {
    forall c: nat, w: Task | LastIs(s, c, w) && w.ticket != t ensures LastIs(s', c, w) {
      var ws := s.queues[c].waiting;
      if c == n { assert ([Requeued(task)] + ws)[|ws|] == w; }
    }
  }

  // ---------- handing over a running task ----------

  /** A running task that polls can be handed over, from its own queue or from the one it is put back into. */
  lemma HandsRunning(s: State, j: nat, n: nat) returns (es: seq<Event>)
    requires Free(s, n) && Polls(s, j) && j != n && s.queues[n].waiting == []
    ensures NoSend(es)
    ensures var t := s.queues[j].flight.value.task.ticket; WasHanded(Run(s, es), t) && LastsKept(s, Run(s, es), t)
  {
    var task := s.queues[j].flight.value.task;
    es := PollsOut(s, j, n);
    var s1 := Run(s, es);
    PollEndedKeeps(s, s1, j, n, task, task.ticket);
    if s1.queues[n].waiting == [] {
      assert task in s1.hist.handed;
    } else {
      HandsFirst(s1, n);
      RunOne(s1, Dispatch(n));
      RunAppend(s, es, [Dispatch(n)]);
      es := es + [Dispatch(n)];
      assert Requeued(task) in Run(s, es).hist.handed;
      forall c: nat, w: Task | LastIs(s, c, w) && w.ticket != task.ticket ensures LastIs(Run(s, es), c, w) {
        assert LastIs(s1, c, w) && c != n;
      }
    }
  }

  // ---------- handing over a waiting task ----------

  lemma EndsSending(s: State, j: nat, n: nat, t: nat)
    requires Free(s, n) && j < |s.queues| && j != n && !s.queues[j].paused
    requires s.queues[j].flight.Some? && s.queues[j].flight.value.phase.Sending?
    ensures var s' := Step(s, SendDone(j, true));
            && Flowing(s', j) && s'.queues[j].waiting == s.queues[j].waiting && LastsKept(s, s', t)
  {
    SendsFirst(s, j, s.queues[j].flight.value.task);
    forall c: nat, w: Task | LastIs(s, c, w) && w.ticket != t ensures LastIs(Step(s, SendDone(j, true)), c, w) {
    }
  }

  /** A queue that is not paused can be made to end its running task. */
  lemma EndsRunning(s: State, j: nat, n: nat, t: nat) returns (es: seq<Event>)
    requires Free(s, n) && j < |s.queues| && j != n && !s.queues[j].paused
    ensures NoSend(es)
    ensures var s' := Run(s, es); Flowing(s', j) && s'.queues[j].waiting == s.queues[j].waiting && LastsKept(s, s', t)
  {
    if s.queues[j].flight == None {
      es := [];
    } else if Polls(s, j) {
      es := PollsOut(s, j, n);
      var s1 := Run(s, es);
      PollEndedKeeps(s, s1, j, n, s.queues[j].flight.value.task, t);
      if s1.queues[j].flight.Some? {
        EndsSending(s1, j, n, t);
        RunOne(s1, SendDone(j, true));
        RunAppend(s, es, [SendDone(j, true)]);
        es := es + [SendDone(j, true)];
      }
    } else {
      EndsSending(s, j, n, t);
      RunOne(s, SendDone(j, true));
      es := [SendDone(j, true)];
    }
  }

  ghost predicate OnlyAt(ws: seq<Task>, i: nat)
    requires i < |ws|
  {
    forall h :: 0 <= h < |ws| && h != i ==> ws[h].ticket != ws[i].ticket
  }

  lemma HandsFront(s: State, j: nat)
    requires Flowing(s, j) && s.queues[j].waiting != [] && OnlyAt(s.queues[j].waiting, 0)
    ensures var t := s.queues[j].waiting[0].ticket;
            WasHanded(Step(s, Dispatch(j)), t) && LastsKept(s, Step(s, Dispatch(j)), t)
  {
    var ws, s' := s.queues[j].waiting, Step(s, Dispatch(j));
    HandsFirst(s, j);
    assert ws[0] in s'.hist.handed;
    forall c: nat, w: Task | LastIs(s, c, w) && w.ticket != ws[0].ticket ensures LastIs(s', c, w) {
      if c == j { assert ws[1..][|ws| - 2] == w; }
    }
  }

  lemma PassesFront(s: State, j: nat, i: nat)
    requires Flowing(s, j) && 0 < i < |s.queues[j].waiting| && OnlyAt(s.queues[j].waiting, i)
    ensures var s', t := Step(Step(s, Dispatch(j)), SendDone(j, true)), s.queues[j].waiting[i].ticket;
            && Flowing(s', j) && s'.queues[j].waiting == s.queues[j].waiting[1..] && LastsKept(s, s', t)
            && OnlyAt(s'.queues[j].waiting, i - 1)
  {
    var ws := s.queues[j].waiting;
    FirstDelivered(s, j);
    var s' := Step(Step(s, Dispatch(j)), SendDone(j, true));
    forall c: nat, w: Task | LastIs(s, c, w) && w.ticket != ws[i].ticket ensures LastIs(s', c, w) {
      if c == j { assert ws[1..][|ws| - 2] == w; }
    }
  }

  /** The tasks ahead go first, then the task at position `i`. */
  lemma {:induction false} HandsWaiting(s: State, j: nat, i: nat) returns (es: seq<Event>)
    requires Flowing(s, j) && i < |s.queues[j].waiting| && OnlyAt(s.queues[j].waiting, i)
    ensures NoSend(es)
    ensures var t := s.queues[j].waiting[i].ticket; WasHanded(Run(s, es), t) && LastsKept(s, Run(s, es), t)
    decreases i
  {
    if i == 0 {
      es := [Dispatch(j)];
      HandsFront(s, j);
      RunOne(s, Dispatch(j));
    } else {
      PassesFront(s, j, i);
      var rest := HandsWaiting(Step(Step(s, Dispatch(j)), SendDone(j, true)), j, i - 1);
      RunTwo(s, Dispatch(j), SendDone(j, true));
      RunAppend(s, [Dispatch(j), SendDone(j, true)], rest);
      es := [Dispatch(j), SendDone(j, true)] + rest;
    }
  }

  // ---------- resuming ----------

  /** A queue that is not stuck can be made to run, and nothing else happens to its tasks. */
  lemma Resumes(s: State, j: nat) returns (es: seq<Event>)
    requires j < |s.queues| && !Stuck(s, j)
    ensures NoSend(es) && Undisturbed(es)
    ensures var s' := Run(s, es);
            && s'.queues == s.queues[j := s.queues[j].(paused := false)] && s'.hist == s.hist && s'.conf == s.conf
            && s'.sendingQueue == s.sendingQueue && (IsConnected(s) ==> IsConnected(s'))
  {
    if !s.queues[j].paused {
      es := [];
    } else if s.resuming > 0 {
      var k := |s.sockets|;
      var s1 := Step(s, ConnectResumes(true, SocketCreated));
      assert s1.sockets[k] == CONNECTING && s1.queues == s.queues;
      es := [ConnectResumes(true, SocketCreated), SocketOpen(k)];
      RunTwo(s, ConnectResumes(true, SocketCreated), SocketOpen(k));
    } else {
      var k: nat :| k < |s.sockets| && s.sockets[k] == CONNECTING;
      es := [SocketOpen(k)];
      RunOne(s, SocketOpen(k));
    }
  }

  // ---------- the main results ----------

  lemma {:induction false} HeldWitness(qs: seq<Queue>, l: Lens) returns (j: nat)
    requires Held(qs, l) >= 1
    ensures j < |qs| && HeldBy(qs[j], l) >= 1
  {
    if HeldBy(qs[0], l) >= 1 {
      j := 0;
    } else {
      var k := HeldWitness(qs[1..], l);
      j := k + 1;
    }
  }

  lemma {:induction false} CountTwice(ts: seq<Task>, h: nat, i: nat, l: Lens)
    requires h < i < |ts| && Sees(l, ts[h]) && Sees(l, ts[i])
    ensures Count(ts, l) >= 2
  {
    if h == 0 {
      CountAtLeast(ts[1..], i - 1, l);
    } else {
      CountTwice(ts[1..], h - 1, i - 1, l);
    }
  }

  lemma TicketOnce(s: State, j: nat, i: nat)
    requires Balanced(s, [], []) && j < |s.queues| && i < |s.queues[j].waiting|
    ensures OnlyAt(s.queues[j].waiting, i)
  {
    var ws := s.queues[j].waiting;
    var l := ByTicket(ws[i].ticket);
    HeldAtLeast(s.queues, j, l);
    assert Placed(s, ws[i].ticket) + Count([], l) == Expected(s, ws[i].ticket);
    assert Count(ws, l) <= 1;
    forall h | 0 <= h < |ws| && h != i && ws[h].ticket == ws[i].ticket ensures Count(ws, l) >= 2 {
      CountTwice(ws, if h < i then h else i, if h < i then i else h, l);
    }
  }

  /** An accepted message that was neither handed over nor dropped is running or waits somewhere. */
  lemma Located(s: State, t: nat) returns (j: nat)
    requires Balanced(s, [], []) && t < |s.hist.accepted| && !WasHanded(s, t) && !Dropped(s.hist, t)
    ensures j < |s.queues| && (Waits(s, j, t) || (Polls(s, j) && s.queues[j].flight.value.task.ticket == t))
  {
    HandedCounts(s, t);
    assert Placed(s, t) + Count([], ByTicket(t)) == Expected(s, t);
    assert Count(s.hist.handed, ByTicket(t)) == Outcomes(s, t);
    j := HeldWitness(s.queues, ByTicket(t));
    var q := s.queues[j];
    if Count(q.waiting, ByTicket(t)) >= 1 {
      var i := CountWitness(q.waiting, ByTicket(t));
      assert q.waiting[i].ticket == t;
    } else {
      HeldAtLeast(s.queues, j, OnWire(t));
    }
  }

  /** What is not dead can be handed over, by connecting anew if need be, and without taking the last waiting task
      of any queue. */
  lemma CanHand(s: State, t: nat) returns (es: seq<Event>)
    requires Balanced(s, [], []) && t < |s.hist.accepted| && !Dead(s, t)
    ensures NoSend(es) && WasHanded(Run(s, es), t) && LastsKept(s, Run(s, es), t)
  {
    if WasHanded(s, t) {
      es := [];
    } else {
      var j := Located(s, t);
      if Waits(s, j, t) {
        var i: nat :| i < |s.queues[j].waiting| && s.queues[j].waiting[i].ticket == t;
        TicketOnce(s, j, i);
        es := CanHandWaiting(s, j, i);
      } else {
        es := CanHandRunning(s, j);
      }
    }
  }

  lemma CanHandRunning(s: State, j: nat) returns (es: seq<Event>)
    requires Polls(s, j)
    ensures NoSend(es)
    ensures var t := s.queues[j].flight.value.task.ticket; WasHanded(Run(s, es), t) && LastsKept(s, Run(s, es), t)
  {
    Reconnects(s);
    var s1 := Run(s, Reconnect(s));
    assert s1.queues[j] == s.queues[j];
    var rest := HandsRunning(s1, j, |s.queues|);
    RunAppend(s, Reconnect(s), rest);
    es := Reconnect(s) + rest;
    forall c: nat, w: Task | LastIs(s, c, w) ensures LastIs(s1, c, w) {
    }
  }

  lemma CanHandWaiting(s: State, j: nat, i: nat) returns (es: seq<Event>)
    requires j < |s.queues| && !Stuck(s, j) && i < |s.queues[j].waiting| && OnlyAt(s.queues[j].waiting, i)
    ensures NoSend(es)
    ensures var t := s.queues[j].waiting[i].ticket; WasHanded(Run(s, es), t) && LastsKept(s, Run(s, es), t)
  {
    var a := Resumes(s, j);
    var s1 := Run(s, a);
    assert s1.queues[j].waiting == s.queues[j].waiting;
    var b := CanHandRunnable(s1, j, i);
    RunAppend(s, a, b);
    es := a + b;
    forall c: nat, w: Task | LastIs(s, c, w) ensures LastIs(s1, c, w) {
    }
  }

  lemma CanHandRunnable(s: State, j: nat, i: nat) returns (es: seq<Event>)
    requires j < |s.queues| && !s.queues[j].paused && i < |s.queues[j].waiting| && OnlyAt(s.queues[j].waiting, i)
    ensures NoSend(es)
    ensures var t := s.queues[j].waiting[i].ticket; WasHanded(Run(s, es), t) && LastsKept(s, Run(s, es), t)
  {
    Reconnects(s);
    var s1 := Run(s, Reconnect(s));
    assert s1.queues[j] == s.queues[j];
    var b := CanHandBeside(s1, j, |s.queues|, i);
    RunAppend(s, Reconnect(s), b);
    es := Reconnect(s) + b;
    forall c: nat, w: Task | LastIs(s, c, w) ensures LastIs(s1, c, w) {
    }
  }

  lemma CanHandBeside(s: State, j: nat, n: nat, i: nat) returns (es: seq<Event>)
    requires Free(s, n) && j < |s.queues| && j != n && !s.queues[j].paused
    requires i < |s.queues[j].waiting| && OnlyAt(s.queues[j].waiting, i)
    ensures NoSend(es)
    ensures var t := s.queues[j].waiting[i].ticket; WasHanded(Run(s, es), t) && LastsKept(s, Run(s, es), t)
  {
    var t := s.queues[j].waiting[i].ticket;
    var a := EndsRunning(s, j, n, t);
    var b := HandsWaiting(Run(s, a), j, i);
    RunAppend(s, a, b);
    es := a + b;
    KeptThrough(s, Run(s, a), Run(s, es), t);
  }

  lemma KeptThrough(s: State, s1: State, s2: State, t: nat)
    requires LastsKept(s, s1, t) && LastsKept(s1, s2, t)
    ensures LastsKept(s, s2, t)
  {
  }

  /** Some continuation hands the message to the socket, or it was handed over already. */
  ghost predicate CanBeHanded(s: State, t: nat) {
    exists es :: WasHanded(Run(s, es), t)
  }

  lemma DeadNeverHanded(s: State, t: nat)
    requires Balanced(s, [], []) && Dead(s, t)
    ensures !CanBeHanded(s, t)
  {
    forall es: seq<Event> ensures !WasHanded(Run(s, es), t) {
      RunBalanced(s, es);
      DeadRun(s, es, t);
      DeadNotHanded(Run(s, es), t);
    }
  }

  /** Main result. In every reachable state, with any number of queues and sockets, an accepted message is, or can still
      be, handed to the socket if and only if it was not dropped and does not wait in a stuck queue. */
  lemma HandOverIff(before: seq<Event>, t: nat)
    requires t < |Run(INIT, before).hist.accepted|
    ensures CanBeHanded(Run(INIT, before), t) <==> !Dead(Run(INIT, before), t)
  {
    var s := Run(INIT, before);
    InitBalanced();
    RunBalanced(INIT, before);
    if Dead(s, t) {
      DeadNeverHanded(s, t);
    } else {
      var es := CanHand(s, t);
      assert WasHanded(Run(s, es), t);
    }
  }

  /** Some continuation without connect and disconnect hands the message to the socket. */
  ghost predicate GoesUndisturbed(s: State, t: nat) {
    exists es :: Undisturbed(es) && WasHanded(Run(s, es), t)
  }

  /** Main result. In every reachable state a connected transport with an idle worker can hand over the next message of
      its queue without connecting or disconnecting if and only if the queue is not stuck; and where no socket is
      opening and no connect is suspended, that is if and only if it is not paused. */
  lemma NextGoesIff(before: seq<Event>, q: nat)
    requires var s := Run(INIT, before);
             && IsConnected(s) && MaxRetries(s.conf) >= 0 && s.sendingQueue == Some(q) && q < |s.queues|
             && s.queues[q].flight == None && s.queues[q].waiting != []
    ensures var s := Run(INIT, before); GoesUndisturbed(s, s.queues[q].waiting[0].ticket) <==> !Stuck(s, q)
    ensures var s := Run(INIT, before); NoneOpening(s) ==> (Stuck(s, q) <==> s.queues[q].paused)
  {
    var s := Run(INIT, before);
    var task := s.queues[q].waiting[0];
    if !Stuck(s, q) {
      var a := Resumes(s, q);
      var s1 := Run(s, a);
      HandsFirst(s1, q);
      RunOne(s1, Dispatch(q));
      RunAppend(s, a, [Dispatch(q)]);
      assert task in Run(s, a + [Dispatch(q)]).hist.handed;
      assert Undisturbed(a + [Dispatch(q)]) && WasHanded(Run(s, a + [Dispatch(q)]), task.ticket);
    } else {
      assert Waits(s, q, task.ticket) && Dead(s, task.ticket);
      InitBalanced();
      RunBalanced(INIT, before);
      DeadNeverHanded(s, task.ticket);
    }
  }
}
