/** The transport and its send queue as objects that change in place. Every method is one step of the transport
    model, so the runs of these objects are runs of the model. */
module WsTransport {
  import opened Wrappers
  import M = TransportModel
  import B = TransportBalance
  import O = TransportOutcome

  /** A queue with one worker: what is documented of push, unshift, pause, resume and kill. */
  class AsyncQueue {
    const id: nat
    var tasks: seq<M.Task>
    var running: Option<M.Flight>
    var paused: bool
    var drains: bool

    ghost function View(): M.Queue
      reads this
    {
      M.Queue(tasks, running, paused, drains)
    }

    constructor (id: nat)
      ensures this.id == id && View() == M.EMPTY_QUEUE
    {
      this.id := id;
      tasks, running, paused, drains := [], None, false, true;
    }

    /** Adds one item per message at the end, all with the same callback. */
    method Push(msgs: seq<M.Message>, first: nat, batch: nat)
      modifies this`tasks
      ensures tasks == old(tasks) + M.NewTasks(msgs, first, batch)
    {
      var i := 0;
      assert msgs[0..] == msgs;
      while i < |msgs|
        invariant 0 <= i <= |msgs|
        invariant tasks + M.NewTasks(msgs[i..], first + i, batch) == old(tasks) + M.NewTasks(msgs, first, batch)
      {
        var item := M.Task(first + i, msgs[i], M.Caller(batch));
        assert msgs[i..][1..] == msgs[i + 1..];
        assert tasks + M.NewTasks(msgs[i..], first + i, batch)
               == tasks + [item] + M.NewTasks(msgs[i + 1..], first + i + 1, batch);
        tasks := tasks + [item];
        i := i + 1;
      }
      assert msgs[i..] == [];
    }

    method Unshift(task: M.Task)
      modifies this`tasks
      ensures tasks == [task] + old(tasks)
    {
      tasks := [task] + tasks;
    }

    method Pause()
      modifies this`paused
      ensures paused
    {
      paused := true;
    }

    method Resume()
      modifies this`paused
      ensures !paused
    {
      paused := false;
    }

    /** Removes the drain callback and the waiting tasks, which are returned. */
    method Kill() returns (killed: seq<M.Task>)
      modifies this`tasks, this`drains
      ensures killed == old(tasks) && tasks == [] && !drains
    {
      killed := tasks;
      tasks, drains := [], false;
    }

    method Next() returns (task: M.Task)
      requires tasks != []
      modifies this`tasks
      ensures task == old(tasks)[0] && tasks == old(tasks)[1..]
    {
      task := tasks[0];
      tasks := tasks[1..];
    }

    method IsIdle() returns (idle: bool)
      ensures idle <==> M.Idle(View())
    {
      idle := |tasks| == 0 && running.None?;
    }
  }

  ghost function Views(qs: seq<AsyncQueue>): (vs: seq<M.Queue>)
    reads qs
    ensures |vs| == |qs|
    ensures forall i :: 0 <= i < |qs| ==> vs[i] == qs[i].View()
  {
    seq(|qs|, i requires 0 <= i < |qs| reads qs => qs[i].View())
  }

  /** What the class keeps is what every step of the model keeps. */
  lemma Keeps(s: M.State, e: M.Event)
    requires O.Valid(s) && B.Balanced(s, [], [])
    ensures O.Valid(M.Step(s, e)) && B.Balanced(M.Step(s, e), [], [])
  {
    O.StepValid(s, e);
    B.StepBalanced(s, e);
  }

  lemma DrainTimerStep(s: M.State, h: nat)
    requires h in s.liveTimers
    ensures M.Step(s, M.DrainTimer(h)) == M.DisconnectNow(s.(liveTimers := s.liveTimers - {h}), true)
  {
  }

  class Transport {
    var ws: Option<nat>
    var sockets: seq<M.ReadyState>
    var sendingQueue: AsyncQueue?
    var conf: Option<M.Conf>
    var drainTimeoutHandle: Option<nat>
    var liveTimers: set<nat>
    var nextTimer: nat
    var suspended: nat
    // numbers for tasks, batches and queues, which the program tells apart by identity
    var nextTicket: nat
    var nextBatch: nat
    var nextQueue: nat
    ghost var queues: seq<AsyncQueue>
    ghost var hist: M.History

    ghost function View(): M.State
      reads this, queues
    {
      M.State(ws, sockets, if sendingQueue == null then None else Some(sendingQueue.id), Views(queues), conf,
              drainTimeoutHandle, liveTimers, nextTimer, suspended, hist)
    }

    /** The queue objects are those of the model, in order. */
    ghost predicate Coupled()
      reads this, queues
    {
      && (forall i :: 0 <= i < |queues| ==> queues[i].id == i)
      && (sendingQueue != null ==> sendingQueue.id < |queues| && queues[sendingQueue.id] == sendingQueue)
      && nextTicket == |hist.accepted| && nextBatch == hist.batches && nextQueue == |queues|
    }

    /** Every message and callback is accounted for, and the drain timer is under control. */
    ghost predicate Valid()
      reads this, queues
    {
      Coupled() && O.Valid(View()) && B.Balanced(View(), [], [])
    }

    /** What a caller may rely on at any time: each accepted message is in one place, its callback runs at most once, it
        was handed to the socket at most once, and at most one drain timer is live, named by the handle. */
    lemma Guarantees(t: nat)
      requires Valid()
      ensures B.Placed(View(), t) == if t < |hist.accepted| then 1 else 0
      ensures B.RanFor(hist.ran, t) <= 1 && B.Count(hist.handed, B.ByTicket(t)) <= 1
      ensures liveTimers == if drainTimeoutHandle.Some? then {drainTimeoutHandle.value} else {}
    {
      var s := View();
      assert B.Placed(s, t) + B.Count([], B.ByTicket(t)) == B.Expected(s, t);
      assert B.Owned(s, t) + B.Count([], B.ByOwner(t)) == B.Expected(s, t);
      assert B.Count(s.hist.handed, B.ByTicket(t)) == B.Outcomes(s, t);
      B.WireIsHeld(s.queues, t);
    }

    ghost predicate Owns(q: AsyncQueue)
      reads this
    {
      q.id < |queues| && queues[q.id] == q
    }

    /** Only queue `q` differs from before. */
    twostate lemma OneQueueChanged(q: AsyncQueue)
      requires queues == old(queues) && Owns(q)
      requires forall i :: 0 <= i < |queues| ==> queues[i].id == i
      requires forall i :: 0 <= i < |queues| && i != q.id ==> unchanged(queues[i])
      ensures Views(queues) == old(Views(queues))[q.id := q.View()]
    {
    }

    constructor ()
      ensures Valid() && View() == M.INIT
    {
      ws, sockets, sendingQueue, conf := None, [], null, None;
      drainTimeoutHandle, liveTimers, nextTimer, suspended := None, {}, 0, 0;
      nextTicket, nextBatch, nextQueue := 0, 0, 0;
      queues, hist := [], M.EMPTY_HISTORY;
    }

    // ---------- the drain timer ----------

    method ClearDrainTimer()
      requires Coupled()
      modifies this`drainTimeoutHandle, this`liveTimers
      ensures Coupled() && View() == M.ClearDrain(old(View()))
    {
      if drainTimeoutHandle.Some? {
        liveTimers := liveTimers - {drainTimeoutHandle.value};
      }
      drainTimeoutHandle := None;
    }

    method DrainHandler()
      requires Coupled()
      modifies this`drainTimeoutHandle, this`liveTimers, this`nextTimer
      ensures Coupled() && View() == M.DrainHandler(old(View()))
    {
      ClearDrainTimer();
      var strategy := if conf.Some? then conf.value.strategy else M.DEFAULT_STRATEGY;
      if strategy != M.LEAVE_OPEN {
        drainTimeoutHandle, liveTimers, nextTimer := Some(nextTimer), liveTimers + {nextTimer}, nextTimer + 1;
      }
    }

    // ---------- the worker ----------

    /** The drain callback of an idle queue runs. */
    method DrainIfIdle(q: AsyncQueue)
      requires Coupled() && Owns(q)
      modifies this`drainTimeoutHandle, this`liveTimers, this`nextTimer
      ensures Coupled() && View() == M.DrainIfIdle(old(View()), q.id)
    {
      assert Views(queues)[q.id] == q.View();
      var idle := q.IsIdle();
      if idle && q.drains {
        DrainHandler();
      }
    }

    /** The worker of `q` calls back for a task it no longer runs. */
    method Finish(q: AsyncQueue, task: M.Task, ok: bool)
      requires Coupled() && Owns(q)
      modifies this`drainTimeoutHandle, this`liveTimers, this`nextTimer, this`hist
      ensures Coupled() && View() == M.Finish(old(View()), q.id, task, ok)
    {
      hist := M.RunCallback(hist, task, ok);
      DrainIfIdle(q);
    }

    method Refuse(q: AsyncQueue, task: M.Task)
      requires Coupled() && Owns(q)
      modifies this`drainTimeoutHandle, this`liveTimers, this`nextTimer, this`hist
      ensures Coupled() && View() == M.Refuse(old(View()), q.id, task)
    {
      hist := hist.(refused := hist.refused + [task]);
      Finish(q, task, false);
    }

    method PutBack(q: AsyncQueue, task: M.Task)
      requires Coupled() && Owns(q) && sendingQueue != null
      modifies this`drainTimeoutHandle, this`liveTimers, this`nextTimer, this`hist, sendingQueue
      ensures Coupled() && View() == M.PutBack(old(View()), q.id, task)
    {
      label before:
      sendingQueue.Unshift(task.(cb := M.LogOnly));
      OneQueueChanged@before(sendingQueue);
      Finish(q, task, false);
    }

    method SetRunning(q: AsyncQueue, flight: Option<M.Flight>)
      requires Coupled() && Owns(q)
      modifies q`running
      ensures Coupled() && View() == M.SetFlight(old(View()), q.id, flight)
    {
      label before:
      q.running := flight;
      OneQueueChanged@before(q);
    }

    /** One look at the socket: sleep, give up and put the message back, or send it. */
    method WaitForSocketConnection(q: AsyncQueue, task: M.Task, socket: nat, retries: int)
      requires Coupled() && Owns(q)
      modifies this`drainTimeoutHandle, this`liveTimers, this`nextTimer, this`hist, queues
      ensures Coupled() && View() == M.Wait(old(View()), q.id, task, socket, retries) && queues == old(queues)
    {
      if retries < 0 {
        if sendingQueue == null {
          Refuse(q, task);
        } else {
          PutBack(q, task);
        }
      } else if socket < |sockets| && sockets[socket] == M.OPEN {
        if ws == None {
          Refuse(q, task);
        } else {
          hist := hist.(handed := hist.handed + [task]);
          SetRunning(q, Some(M.Flight(task, M.Sending)));
        }
      } else {
        SetRunning(q, Some(M.Flight(task, M.Polling(socket, retries - 1))));
      }
    }

    method Transmit(q: AsyncQueue, task: M.Task)
      requires Coupled() && Owns(q)
      modifies this`drainTimeoutHandle, this`liveTimers, this`nextTimer, this`hist, queues
      ensures Coupled() && View() == M.Transmit(old(View()), q.id, task) && queues == old(queues)
    {
      if ws == None {
        Refuse(q, task);
      } else {
        WaitForSocketConnection(q, task, ws.value, if conf.Some? then conf.value.maxRetries else M.DEFAULT_MAX_RETRIES);
      }
    }

    /** The queue gives its next task to the worker. */
    method Process(q: AsyncQueue)
      requires Valid() && Owns(q) && M.Enabled(View(), M.Dispatch(q.id))
      modifies this`drainTimeoutHandle, this`liveTimers, this`nextTimer, this`hist, queues
      ensures Valid() && View() == M.Step(old(View()), M.Dispatch(q.id)) && queues == old(queues)
    {
      label before:
      assert Views(queues)[q.id] == q.View();
      var task := q.Next();
      OneQueueChanged@before(q);
      assert View() == M.TakeNext(old(View()), q.id);
      Transmit(q, task);
      Keeps(old(View()), M.Dispatch(q.id));
    }

    /** The sleep between two looks is over. */
    method PollTimer(q: AsyncQueue)
      requires Valid() && Owns(q) && M.Enabled(View(), M.PollTick(q.id))
      modifies this`drainTimeoutHandle, this`liveTimers, this`nextTimer, this`hist, queues
      ensures Valid() && View() == M.Step(old(View()), M.PollTick(q.id)) && queues == old(queues)
    {
      assert Views(queues)[q.id] == q.View();
      var f := q.running.value;
      SetRunning(q, None);
      WaitForSocketConnection(q, f.task, f.phase.socket, f.phase.retries);
      Keeps(old(View()), M.PollTick(q.id));
    }

    method CompleteSend(q: AsyncQueue, task: M.Task, ok: bool)
      requires Coupled() && Owns(q)
      modifies this`drainTimeoutHandle, this`liveTimers, this`nextTimer, this`hist
      ensures Coupled() && View() == M.SendCompletes(old(View()), q.id, task, ok)
    {
      if ok {
        hist := hist.(sent := hist.sent + [task]);
      } else {
        hist := hist.(sendFailed := hist.sendFailed + [task]);
      }
      Finish(q, task, ok);
    }

    /** The callback of `ws.send`. */
    method SendCallback(q: AsyncQueue, ok: bool)
      requires Valid() && Owns(q) && M.Enabled(View(), M.SendDone(q.id, ok))
      modifies this`drainTimeoutHandle, this`liveTimers, this`nextTimer, this`hist, queues
      ensures Valid() && View() == M.Step(old(View()), M.SendDone(q.id, ok)) && queues == old(queues)
    {
      assert Views(queues)[q.id] == q.View();
      var task := q.running.value.task;
      SetRunning(q, None);
      CompleteSend(q, task, ok);
      Keeps(old(View()), M.SendDone(q.id, ok));
    }

    // ---------- sending ----------

    /** Numbers the messages and puts them at the end of the queue. */
    method Accept(q: AsyncQueue, msgs: seq<M.Message>, batch: nat)
      requires Coupled() && Owns(q)
      modifies this`nextTicket, this`hist, q`tasks
      ensures Coupled()
      ensures View() == M.Accept(old(View()), q.id, msgs, batch)
    {
      label before:
      assert Views(queues)[q.id] == q.View();
      q.Push(msgs, nextTicket, batch);
      OneQueueChanged@before(q);
      assert View() == M.SetQueue(old(View()), q.id, q.View());
      nextTicket := nextTicket + |msgs|;
      hist := hist.(accepted := hist.accepted + M.NewAccepted(msgs, batch));
    }

    method Enqueue(q: AsyncQueue, msgs: seq<M.Message>, batch: nat)
      requires Coupled() && Owns(q)
      modifies this`drainTimeoutHandle, this`liveTimers, this`nextTimer, this`nextTicket, this`hist, q`tasks
      ensures Coupled() && View() == M.Enqueue(old(View()), q.id, msgs, batch)
    {
      Accept(q, msgs, batch);
      DrainIfIdle(q);
    }

    method CountBatch() returns (batch: nat)
      requires Coupled()
      modifies this`nextBatch, this`hist
      ensures Coupled() && batch == old(hist.batches) && View() == M.CountBatch(old(View()))
    {
      batch := nextBatch;
      nextBatch := nextBatch + 1;
      hist := hist.(batches := batch + 1);
    }

    /** The callback runs with an error at once. */
    method RejectBatch(batch: nat)
      requires Coupled()
      modifies this`hist
      ensures Coupled() && View() == M.RejectBatch(old(View()), batch)
    {
      hist := hist.(ran := hist.ran + [M.Ran(batch, None, false)]);
    }

    /** Queues the messages, or runs the callback with an error when there is no queue. */
    method SendWithCallback(msgs: seq<M.Message>)
      requires Coupled()
      modifies this`drainTimeoutHandle, this`liveTimers, this`nextTimer, this`nextTicket, this`nextBatch, this`hist,
               sendingQueue
      ensures Coupled() && View() == M.SendMessages(old(View()), msgs)
    {
      var b := CountBatch();
      if sendingQueue == null {
        RejectBatch(b);
      } else {
        Enqueue(sendingQueue, msgs, b);
      }
    }

    method SendMessages(msgs: seq<M.Message>)
      requires Valid()
      modifies this`drainTimeoutHandle, this`liveTimers, this`nextTimer, this`nextTicket, this`nextBatch, this`hist,
               sendingQueue
      ensures Valid() && View() == M.Step(old(View()), M.Send(msgs))
    {
      SendWithCallback(msgs);
      Keeps(old(View()), M.Send(msgs));
    }

    // ---------- connecting and disconnecting ----------

    /** Empties the queue for good. */
    method KillQueue(q: AsyncQueue)
      requires Coupled() && Owns(q)
      modifies this`hist, q`tasks, q`drains
      ensures Coupled() && View() == M.KillQueue(old(View()), q.id)
    {
      label before:
      assert Views(queues)[q.id] == q.View();
      var killed := q.Kill();
      OneQueueChanged@before(q);
      hist := hist.(flushed := hist.flushed + killed);
    }

    method Flush(q: AsyncQueue)
      requires Coupled() && Owns(q)
      modifies this`drainTimeoutHandle, this`liveTimers, this`nextTimer, this`hist, q`tasks, q`drains
      ensures Coupled() && View() == M.Flush(old(View()), q.id)
    {
      assert Views(queues)[q.id] == q.View();
      if q.drains {
        DrainHandler();
      }
      KillQueue(q);
    }

    method DropReferences()
      requires Coupled()
      modifies this`ws, this`sendingQueue, this`conf, this`drainTimeoutHandle, this`liveTimers, this`sockets
      ensures Coupled() && View() == M.DropReferences(old(View()))
    {
      ClearDrainTimer();
      var socket := ws;
      ws, sendingQueue, conf := None, null, None;
      assert View() == M.ClearDrain(old(View())).(ws := None, sendingQueue := None, conf := None);
      if socket.Some? && socket.value < |sockets| && sockets[socket.value] != M.CLOSED {
        sockets := sockets[socket.value := M.CLOSING];
      }
    }

    /** The synchronous part of `disconnect`. */
    method DisconnectNow(flushQueue: bool)
      requires Coupled()
      modifies this`ws, this`sendingQueue, this`conf, this`drainTimeoutHandle, this`liveTimers, this`sockets,
               this`nextTimer, this`hist, sendingQueue
      ensures Coupled() && View() == M.DisconnectNow(old(View()), flushQueue)
    {
      if flushQueue && sendingQueue != null {
        assert Views(queues)[sendingQueue.id] == sendingQueue.View();
        if |sendingQueue.tasks| > 0 {
          Flush(sendingQueue);
        }
      }
      DropReferences();
    }

    method Disconnect(flushQueue: bool)
      requires Valid()
      modifies this`ws, this`sendingQueue, this`conf, this`drainTimeoutHandle, this`liveTimers, this`sockets,
               this`nextTimer, this`hist, sendingQueue
      ensures Valid() && View() == M.Step(old(View()), M.Disconnect(flushQueue))
    {
      DisconnectNow(flushQueue);
      Keeps(old(View()), M.Disconnect(flushQueue));
    }

    method OpenSocket(outcome: M.ConnectOutcome)
      requires Coupled()
      modifies this`ws, this`sockets
      ensures Coupled() && View() == M.OpenSocket(old(View()), outcome)
    {
      if outcome == M.SocketCreated {
        ws, sockets := Some(|sockets|), sockets + [M.CONNECTING];
      }
    }

    /** `connect` disconnects and waits. */
    method CloseFirst()
      requires Coupled()
      modifies this`ws, this`sendingQueue, this`conf, this`drainTimeoutHandle, this`liveTimers, this`sockets,
               this`nextTimer, this`suspended, this`hist, sendingQueue
      ensures Coupled() && View() == M.DisconnectNow(old(View()), true).(resuming := old(suspended) + 1)
    {
      DisconnectNow(true);
      ghost var closed := View();
      suspended := suspended + 1;
      assert View() == closed.(resuming := suspended);
    }

    /** An open connection is closed first, and the queue goes with it. */
    method OpenOrReplace(outcome: M.ConnectOutcome)
      requires Coupled()
      modifies this`ws, this`sendingQueue, this`conf, this`drainTimeoutHandle, this`liveTimers, this`sockets,
               this`nextTimer, this`suspended, this`hist, sendingQueue
      ensures Coupled() && View() == M.OpenOrReplace(old(View()), outcome)
    {
      if ws.Some? && ws.value < |sockets| && sockets[ws.value] == M.OPEN {
        CloseFirst();
      } else {
        OpenSocket(outcome);
      }
    }

    method CreateQueue(config: M.Conf)
      requires Coupled()
      modifies this`conf, this`queues, this`nextQueue, this`sendingQueue
      ensures Coupled() && View() == M.CreateQueue(old(View()), config)
      ensures fresh(sendingQueue) && queues == old(queues) + [sendingQueue]
    {
      conf := Some(config);
      var q := new AsyncQueue(nextQueue);
      queues, nextQueue := queues + [q], nextQueue + 1;
      sendingQueue := q;
      assert Views(queues) == old(Views(queues)) + [M.EMPTY_QUEUE];
    }

    method BeginConnect(config: M.Conf, outcome: M.ConnectOutcome)
      requires Coupled()
      modifies this, queues
      ensures Coupled() && View() == M.ConnectNow(old(View()), config, outcome)
      ensures old(queues) <= queues && fresh(queues[|old(queues)|..])
    {
      if outcome == M.EndpointThrows {
        conf := Some(config);
      } else {
        CreateQueue(config);
        OpenOrReplace(outcome);
      }
    }

    /** A new queue replaces the old one before anything is known about the connection. */
    method Connect(config: M.Conf, outcome: M.ConnectOutcome)
      requires Valid()
      modifies this, queues
      ensures Valid() && View() == M.Step(old(View()), M.Connect(config, outcome))
      ensures old(queues) <= queues && fresh(queues[|old(queues)|..])
    {
      BeginConnect(config, outcome);
      Keeps(old(View()), M.Connect(config, outcome));
    }

    method ResumeConnect(closed: bool, outcome: M.ConnectOutcome)
      requires Coupled() && suspended > 0
      modifies this`ws, this`sockets, this`suspended
      ensures Coupled() && View() == M.ResumeConnect(old(View()), closed, outcome)
    {
      suspended := suspended - 1;
      if closed {
        OpenSocket(outcome);
      }
    }

    /** The suspended `connect` goes on once the old socket has closed, or gives up if it failed. */
    method ConnectResumed(closed: bool, outcome: M.ConnectOutcome)
      requires Valid() && suspended > 0
      modifies this`ws, this`sockets, this`suspended
      ensures Valid() && View() == M.Step(old(View()), M.ConnectResumes(closed, outcome))
    {
      ResumeConnect(closed, outcome);
      Keeps(old(View()), M.ConnectResumes(closed, outcome));
    }

    method FireDrainTimer(handle: nat)
      requires Coupled()
      modifies this`ws, this`sendingQueue, this`conf, this`drainTimeoutHandle, this`liveTimers, this`sockets,
               this`nextTimer, this`hist, sendingQueue
      ensures Coupled()
      ensures var s := old(View()); View() == M.DisconnectNow(s.(liveTimers := s.liveTimers - {handle}), true)
    {
      liveTimers := liveTimers - {handle};
      DisconnectNow(true);
    }

    method DrainTimerFired(handle: nat)
      requires Valid() && handle in liveTimers
      modifies this`ws, this`sendingQueue, this`conf, this`drainTimeoutHandle, this`liveTimers, this`sockets,
               this`nextTimer, this`hist, sendingQueue
      ensures Valid() && View() == M.Step(old(View()), M.DrainTimer(handle))
    {
      FireDrainTimer(handle);
      DrainTimerStep(old(View()), handle);
      Keeps(old(View()), M.DrainTimer(handle));
    }

    // ---------- socket events ----------

    method PauseQueue(pause: bool)
      requires Coupled()
      modifies queues
      ensures Coupled() && View() == M.SetPaused(old(View()), pause)
    {
      label before:
      if sendingQueue != null {
        if pause { sendingQueue.Pause(); } else { sendingQueue.Resume(); }
        OneQueueChanged@before(sendingQueue);
      }
    }

    method OnConnected(socket: nat)
      requires Valid() && M.Enabled(View(), M.SocketOpen(socket))
      modifies this`sockets, queues
      ensures Valid() && View() == M.Step(old(View()), M.SocketOpen(socket))
    {
      sockets := sockets[socket := M.OPEN];
      PauseQueue(false);
      Keeps(old(View()), M.SocketOpen(socket));
    }

    method OnClosing(socket: nat)
      requires Valid() && M.Enabled(View(), M.SocketClosing(socket))
      modifies this`sockets
      ensures Valid() && View() == M.Step(old(View()), M.SocketClosing(socket))
    {
      sockets := sockets[socket := M.CLOSING];
      Keeps(old(View()), M.SocketClosing(socket));
    }

    method OnClosed(socket: nat)
      requires Valid() && M.Enabled(View(), M.SocketClose(socket))
      modifies this`sockets, queues
      ensures Valid() && View() == M.Step(old(View()), M.SocketClose(socket))
    {
      sockets := sockets[socket := M.CLOSED];
      PauseQueue(true);
      Keeps(old(View()), M.SocketClose(socket));
    }

    method OnError(socket: nat)
      requires Valid() && M.Enabled(View(), M.SocketError(socket))
      modifies queues
      ensures Valid() && View() == M.Step(old(View()), M.SocketError(socket))
    {
      PauseQueue(true);
      Keeps(old(View()), M.SocketError(socket));
    }
  }
}
