/** How often a message is looked at: as many times again as the configuration of its connection says, and then it is
    given up. */
module TransportRetries {
  import opened Wrappers
  import opened TransportModel
  import opened TransportOutcome
  import opened TransportQuiescence
  import opened TransportSteps

  /** Every poll of queue `q` in this run finds socket `k` not open. */
  ghost predicate Shut(s: State, es: seq<Event>, q: nat, k: nat)
    decreases |es|
  {
    es == [] || ((es[0] == PollTick(q) ==> !Open(s, k)) && Shut(Step(s, es[0]), es[1..], q, k))
  }

  function Polls(es: seq<Event>, q: nat): nat {
    if es == [] then 0 else (if es[0] == PollTick(q) then 1 else 0) + Polls(es[1..], q)
  }

  lemma {:induction false} SleepsOn(s: State, es: seq<Event>, q: nat, f: Flight)
    requires Valid(s) && q < |s.queues| && s.queues[q].flight == Some(f) && f.phase.Polling?
    requires Shut(s, es, q, f.phase.socket) && Polls(es, q) <= f.phase.retries + 1
    ensures var s' := Run(s, es);
            && Valid(s') && q < |s'.queues|
            && s'.queues[q].flight == Some(Flight(f.task, Polling(f.phase.socket, f.phase.retries - Polls(es, q))))
    decreases |es|
  {
    if es != [] {
      var s1 := Step(s, es[0]);
      StepValid(s, es[0]);
      if es[0] == PollTick(q) {
        PollIs(s, q);
        SleepsOn(s1, es[1..], q, Flight(f.task, Polling(f.phase.socket, f.phase.retries - 1)));
      } else {
        FlightFrame(s, es[0], q);
        SleepsOn(s1, es[1..], q, f);
      }
    }
  }

  /** The poll behind those of a run that ends in state `s`: the task is given up exactly if none of its retries is
      left; otherwise it goes to the socket if the one it looks at is open. */
  ghost predicate PolledAgain(s: State, q: nat, task: Task, k: nat, left: nat)
    requires q < |s.queues|
  {
    var s', qs := Step(s, PollTick(q)), s.queues[q := s.queues[q].(flight := None)];
    if left == 0 then GivenUp(s, s', qs, q, task)
    else if !Open(s, k) then Sleeps(s, s', qs, q, task, k, left - 2)
    else if s.ws == None then Refused(s, s', qs, q, task)
    else HandedOver(s, s', qs, q, task)
  }

  lemma PollAfter(s: State, q: nat, task: Task, k: nat, left: nat)
    requires Valid(s) && q < |s.queues| && s.queues[q].flight == Some(Flight(task, Polling(k, left - 1)))
    ensures PolledAgain(s, q, task, k, left)
  {
    PollIs(s, q);
  }

  lemma SleepsAsConfigured(s: State, q: nat, k: nat, es: seq<Event>)
    requires Valid(s) && q < |s.queues| && Runnable(s.queues[q]) && s.ws == Some(k) && !Open(s, k) && Retries(s) >= 0
    requires Shut(Step(s, Dispatch(q)), es, q, k) && Polls(es, q) <= Retries(s)
    ensures var s2, task := Run(Step(s, Dispatch(q)), es), s.queues[q].waiting[0];
            && Valid(s2) && q < |s2.queues|
            && s2.queues[q].flight == Some(Flight(task, Polling(k, Retries(s) - 1 - Polls(es, q))))
  {
    StepValid(s, Dispatch(q));
    DispatchIs(s, q);
    SleepsOn(Step(s, Dispatch(q)), es, q, Flight(s.queues[q].waiting[0], Polling(k, Retries(s) - 1)));
  }

  /** Main result. In every state that a run can reach (all of them are `Valid`), a message that the worker takes while
      the socket is not open sleeps through as many polls that find the socket not open as there are retries, whatever
      else happens in between; while retries are left, the next poll hands it over if the socket is open, and the one
      after the last retry gives it up. */
  lemma RetriesAsConfigured(s: State, q: nat, k: nat, es: seq<Event>)
    requires Valid(s) && q < |s.queues| && Runnable(s.queues[q]) && s.ws == Some(k) && !Open(s, k) && Retries(s) >= 0
    requires Shut(Step(s, Dispatch(q)), es, q, k) && Polls(es, q) <= Retries(s)
    ensures var s2, task, n := Run(Step(s, Dispatch(q)), es), s.queues[q].waiting[0], Polls(es, q);
            && q < |s2.queues|
            && s2.queues[q].flight == Some(Flight(task, Polling(k, Retries(s) - 1 - n)))
            && PolledAgain(s2, q, task, k, Retries(s) - n)
  {
    SleepsAsConfigured(s, q, k, es);
    PollAfter(Run(Step(s, Dispatch(q)), es), q, s.queues[q].waiting[0], k, Retries(s) - Polls(es, q));
  }

  // ---------- the configuration of a connection ----------

  lemma {:induction false} ConfKept(s: State, es: seq<Event>)
    requires Undisturbed(es)
    ensures Run(s, es).conf == s.conf
    decreases |es|
  {
    if es != [] {
      WorkerKeepsConf(s, es[0]);
      ConfKept(Step(s, es[0]), es[1..]);
    }
  }

  lemma WorkerKeepsConf(s: State, e: Event)
    requires !e.Connect? && !e.Disconnect? && !e.DrainTimer?
    ensures Step(s, e).conf == s.conf
  {
    if Enabled(s, e) && (e.Dispatch? || e.PollTick? || e.SendDone?) { QueueStepFrame(s, e); }
  }

  /** The number is the configured one from a connect, made while not connected, up to the next connect or disconnect;
      it is ten where there is no configuration, as for a connect that had to disconnect first. */
  lemma RetriesOf(s: State, conf: Conf, outcome: ConnectOutcome, es: seq<Event>)
    requires outcome != EndpointThrows && Undisturbed(es)
    ensures var s' := Run(Step(s, Connect(conf, outcome)), es);
            Retries(s') == if s.ws.Some? && Open(s, s.ws.value) then 10 else conf.maxRetries
    ensures s.conf == None ==> Retries(s) == 10
  {
    ConfKept(Step(s, Connect(conf, outcome)), es);
  }

  /** The next poll ends the task: it is in front of the queue that the transport has, or refused if there is none. */
  ghost predicate Ends(s: State, q: nat, task: Task) {
    var s' := Step(s, PollTick(q));
    && q < |s'.queues| && s'.queues[q].flight == None && s'.hist.handed == s.hist.handed
    && s'.hist.ran == s.hist.ran + Told(task, false)
    && match s.sendingQueue
       case None => s'.hist.refused == s.hist.refused + [task]
       case Some(j) => j < |s.queues| && j < |s'.queues|
                       && s'.queues[j].waiting == [task.(cb := LogOnly)] + s.queues[j].waiting
  }

  lemma EndsNow(s: State, q: nat, task: Task, k: nat)
    requires Valid(s) && q < |s.queues| && s.queues[q].flight == Some(Flight(task, Polling(k, -1)))
    ensures Ends(s, q, task)
  {
    PollIs(s, q);
  }

  /** Main result, from the connect on: with `conf.maxRetries` retries the message is still there after that many polls,
      and the next poll puts it back (or refuses it, if the transport has no queue any more), the caller being told. */
  lemma GivenUpAfterRetries(before: seq<Event>, conf: Conf, life: seq<Event>, q: nat, k: nat, es: seq<Event>)
    requires var s0 := Run(INIT, before); !(s0.ws.Some? && Open(s0, s0.ws.value))
    requires Undisturbed(life) && conf.maxRetries >= 0
    requires var s := Run(Step(Run(INIT, before), Connect(conf, SocketCreated)), life);
             && q < |s.queues| && Runnable(s.queues[q]) && s.ws == Some(k) && !Open(s, k)
             && Shut(Step(s, Dispatch(q)), es, q, k) && Polls(es, q) == conf.maxRetries
    ensures var s := Run(Step(Run(INIT, before), Connect(conf, SocketCreated)), life);
            var s2, task := Run(Step(s, Dispatch(q)), es), s.queues[q].waiting[0];
            && q < |s2.queues| && s2.queues[q].flight.Some? && s2.queues[q].flight.value.task == task
            && Ends(s2, q, task)
  {
    var s0 := Run(INIT, before);
    var s1 := Step(s0, Connect(conf, SocketCreated));
    var s := Run(s1, life);
    RunValid(INIT, before);
    StepValid(s0, Connect(conf, SocketCreated));
    RunValid(s1, life);
    RetriesOf(s0, conf, SocketCreated, life);
    SleepsAsConfigured(s, q, k, es);
    EndsNow(Run(Step(s, Dispatch(q)), es), q, s.queues[q].waiting[0], k);
  }
}
