/** Open connections whose queue stands still: how a late close of another socket brings that about. */
module TransportStranded {
  import opened Wrappers
  import opened TransportModel
  import opened TransportBalance
  import opened TransportOutcome
  import opened TransportOrder
  import opened TransportQuiescence
  import opened TransportReach

  /** Main result. The close of any socket but its own pauses the queue of an open connection, which stays open; and
      the queue is then stuck if and only if no other socket is opening and no `connect` is suspended. */
  lemma LateCloseSticks(s: State, k: nat, q: nat)
    requires Enabled(s, SocketClose(k)) && IsConnected(s) && s.ws != Some(k)
    requires s.sendingQueue == Some(q) && q < |s.queues|
    ensures var s' := Step(s, SocketClose(k));
            && IsConnected(s') && s'.queues[q].paused
            && (Stuck(s', q) <==>
                  s.resuming == 0 && forall i :: 0 <= i < |s.sockets| && i != k ==> s.sockets[i] != CONNECTING)
  {
    var s' := Step(s, SocketClose(k));
    assert forall i :: 0 <= i < |s.sockets| && i != k ==> s'.sockets[i] == s.sockets[i];
  }

  /** The transport's queue is stuck with an idle worker, and no other queue has work. */
  ghost predicate Stranded(s: State, q: nat) {
    Alone(s, q) && s.sendingQueue == Some(q) && Stuck(s, q) && s.queues[q].flight == None
  }

  lemma StrandedStep(s: State, e: Event, q: nat)
    requires Stranded(s, q) && !e.Connect? && !e.Disconnect? && !e.DrainTimer?
    ensures Stranded(Step(s, e), q) && Step(s, e).hist.handed == s.hist.handed
  {
    StuckStep(s, e, q);
  }

  /** Whether connected or not, a stranded transport hands nothing to the socket before a disconnect or another
      connect. */
  lemma {:induction false} StrandedRun(s: State, es: seq<Event>, q: nat)
    requires Stranded(s, q) && Undisturbed(es)
    ensures Stranded(Run(s, es), q) && Run(s, es).hist.handed == s.hist.handed
    decreases |es|
  {
    if es != [] {
      StrandedStep(s, es[0], q);
      StrandedRun(Step(s, es[0]), es[1..], q);
    }
  }

  // ---------- a run in which it happens ----------

  function LateClose(): seq<Event> {
    [Connect(OPEN_CONF, SocketCreated), SocketOpen(0), Disconnect(true),
     Connect(OPEN_CONF, SocketCreated), SocketOpen(1), SocketClose(0)]
  }

  function LateCloseStates(): seq<State> {
    var s1 := State(Some(0), [CONNECTING], Some(0), [EMPTY_QUEUE], Some(OPEN_CONF), None, {}, 0, 0, EMPTY_HISTORY);
    var s2 := s1.(sockets := [OPEN]);
    var s3 := s2.(ws := None, sendingQueue := None, conf := None, sockets := [CLOSING]);
    var s4 := s3.(ws := Some(1), sendingQueue := Some(1), conf := Some(OPEN_CONF), sockets := [CLOSING, CONNECTING],
                  queues := [EMPTY_QUEUE, EMPTY_QUEUE]);
    var s5 := s4.(sockets := [CLOSING, OPEN]);
    var s6 := s5.(sockets := [CLOSED, OPEN], queues := [EMPTY_QUEUE, EMPTY_QUEUE.(paused := true)]);
    [INIT, s1, s2, s3, s4, s5, s6]
  }

  lemma LateCloseTrace(i: nat)
    requires i < 6
    ensures Step(LateCloseStates()[i], LateClose()[i]) == LateCloseStates()[i + 1]
  {
  }

  lemma LateCloseEnds()
    ensures Run(INIT, LateClose()) == LateCloseStates()[6]
  {
    forall i | 0 <= i < 6 { LateCloseTrace(i); }
    RunTrace(LateCloseStates(), LateClose());
  }

  lemma LateCloseStrands()
    ensures Stranded(LateCloseStates()[6], 1) && IsConnected(LateCloseStates()[6])
  {
    var s := LateCloseStates()[6];
    assert |s.queues| == 2 && Idle(s.queues[0]) && s.queues[1].paused && |s.sockets| == 2;
  }

  /** After this run the transport is connected, yet whatever is sent stays in its queue. */
  lemma LateCloseStrandsQueue(es: seq<Event>)
    requires Undisturbed(es)
    ensures IsConnected(Run(INIT, LateClose()))
    ensures Stranded(Run(Run(INIT, LateClose()), es), 1) && Run(Run(INIT, LateClose()), es).hist.handed == []
  {
    LateCloseEnds();
    LateCloseStrands();
    StrandedRun(LateCloseStates()[6], es, 1);
  }
}
