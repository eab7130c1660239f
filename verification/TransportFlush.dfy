/** What a disconnect takes with it: the messages that wait in the queue of the transport are gone for good, and their
    callers are never told. */
module TransportFlush {
  import opened Wrappers
  import opened TransportModel
  import opened TransportBalance
  import opened TransportOutcome
  import opened TransportSteps

  /** A disconnect that flushes: asked for, or by the drain timer. */
  predicate Flushes(s: State, e: Event) {
    e == Disconnect(true) || (e.DrainTimer? && e.handle in s.liveTimers)
  }

  /** Main result: in every reachable state with a queue, a disconnect with a flush moves exactly the waiting messages,
      in their order, from the queue to the flushed ones, and runs no callback; a disconnect without one changes neither
      queues nor history. */
  lemma DisconnectFlushes(before: seq<Event>, e: Event)
    requires var s := Run(INIT, before); s.sendingQueue.Some? && (Flushes(s, e) || e == Disconnect(false))
    ensures var s := Run(INIT, before);
            var s', k := Step(s, e), s.sendingQueue.value;
            && k < |s.queues| && s'.ws == None && s'.sendingQueue == None
            && if e == Disconnect(false) then s'.queues == s.queues && s'.hist == s.hist
               else
                 && |s'.queues| == |s.queues| && s'.queues[k].waiting == []
                 && s'.queues[k].flight == s.queues[k].flight && s'.queues[k].paused == s.queues[k].paused
                 && (forall j :: 0 <= j < |s.queues| && j != k ==> s'.queues[j] == s.queues[j])
                 && s'.hist == s.hist.(flushed := s.hist.flushed + s.queues[k].waiting)
  {
    var s := Run(INIT, before);
    RunValid(INIT, before);
    if e.Disconnect? { DisconnectIs(s, e.flush); } else { DrainTimerIs(s, e.handle); }
    assert s.hist.flushed + [] == s.hist.flushed;
  }

  // ---------- flushed for good ----------

  lemma {:induction false} OwnersAreTickets(ts: seq<Task>, t: nat)
    ensures Count(ts, ByOwner(t)) <= Count(ts, ByTicket(t))
  {
    if ts != [] { OwnersAreTickets(ts[1..], t); }
  }

  lemma {:induction false} HeldOwnersAreTickets(qs: seq<Queue>, t: nat)
    ensures Held(qs, ByOwner(t)) <= Held(qs, ByTicket(t))
  {
    if qs != [] {
      OwnersAreTickets(qs[0].waiting, t);
      HeldOwnersAreTickets(qs[1..], t);
    }
  }

  /** A flushed message is nowhere else: not handed over, and its callback has run or was flushed with it. */
  lemma FlushedIsGone(s: State, t: nat)
    requires Balanced(s, [], []) && Count(s.hist.flushed, ByTicket(t)) >= 1
    ensures Count(s.hist.handed, ByTicket(t)) == 0 && Held(s.queues, ByTicket(t)) == 0
    ensures RanFor(s.hist.ran, t) + Count(s.hist.flushed, ByOwner(t)) == 1
  {
    assert Placed(s, t) + Count([], ByTicket(t)) == Expected(s, t);
    assert Owned(s, t) + Count([], ByOwner(t)) == Expected(s, t);
    assert Count(s.hist.handed, ByTicket(t)) == Outcomes(s, t);
    HeldOwnersAreTickets(s.queues, t);
    WireIsHeld(s.queues, t);
  }

  lemma {:induction false} NoneRan(ran: seq<Ran>, t: nat, i: nat)
    requires RanFor(ran, t) == 0 && i < |ran|
    ensures ran[i].ticket != Some(t)
  {
    if i > 0 { NoneRan(ran[1..], t, i - 1); }
  }

  lemma {:induction false} FlushedStays(s: State, es: seq<Event>)
    ensures s.hist.flushed <= Run(s, es).hist.flushed && s.hist.ran <= Run(s, es).hist.ran
    decreases |es|
  {
    if es != [] {
      DropsStay(s, es[0]);
      StepGrowsRan(s, es[0]);
      FlushedStays(Step(s, es[0]), es[1..]);
    }
  }

  /** Main result: a message flushed by a disconnect is lost. In every later run, whatever is connected again, it is not
      handed to the socket, and no callback runs for it: its caller's promise stays open unless it was told before. */
  lemma FlushedForGood(before: seq<Event>, e: Event, i: nat, after: seq<Event>)
    requires var s := Run(INIT, before);
             && Flushes(s, e) && s.sendingQueue.Some? && s.sendingQueue.value < |s.queues|
             && i < |s.queues[s.sendingQueue.value].waiting|
    ensures var s := Run(INIT, before);
            var s2, t := Run(Step(s, e), after), s.queues[s.sendingQueue.value].waiting[i].ticket;
            && (forall task :: task in s2.hist.handed ==> task.ticket != t)
            && s.hist.ran <= s2.hist.ran
            && (forall r :: r in s2.hist.ran[|s.hist.ran|..] ==> r.ticket != Some(t))
            && Held(s2.queues, ByTicket(t)) == 0
  {
    var s := Run(INIT, before);
    var s1, ws := Step(s, e), s.queues[s.sendingQueue.value].waiting;
    var s2, t := Run(s1, after), ws[i].ticket;
    DisconnectFlushes(before, e);
    CountAtLeast(ws, i, ByTicket(t));
    CountAppend(s.hist.flushed, ws, ByTicket(t));
    InitBalanced();
    RunBalanced(INIT, before);
    StepBalanced(s, e);
    RunBalanced(s1, after);
    FlushedStays(s1, after);
    StaysGone(s1, s2, t);
  }

  lemma StaysGone(s1: State, s2: State, t: nat)
    requires Balanced(s1, [], []) && Balanced(s2, [], [])
    requires s1.hist.flushed <= s2.hist.flushed && s1.hist.ran <= s2.hist.ran
    requires Count(s1.hist.flushed, ByTicket(t)) >= 1
    ensures forall task :: task in s2.hist.handed ==> task.ticket != t
    ensures forall r :: r in s2.hist.ran[|s1.hist.ran|..] ==> r.ticket != Some(t)
    ensures Held(s2.queues, ByTicket(t)) == 0
  {
    var f, f', more := s1.hist.flushed, s2.hist.flushed[|s1.hist.flushed|..], s2.hist.ran[|s1.hist.ran|..];
    assert s2.hist.flushed == f + f' && s2.hist.ran == s1.hist.ran + more;
    CountAppend(f, f', ByTicket(t));
    CountAppend(f, f', ByOwner(t));
    RanForAppend(s1.hist.ran, more, t);
    FlushedIsGone(s1, t);
    FlushedIsGone(s2, t);
    forall r | r in more ensures r.ticket != Some(t) {
      var i: nat :| i < |more| && more[i] == r;
      NoneRan(more, t, i);
    }
    forall task | task in s2.hist.handed ensures task.ticket != t {
      var i: nat :| i < |s2.hist.handed| && s2.hist.handed[i] == task;
      if task.ticket == t { CountAtLeast(s2.hist.handed, i, ByTicket(t)); }
    }
  }
}
