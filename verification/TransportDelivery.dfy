/** Delivery: once the socket opens, what waits can go out, in order and once, with every caller told. */
module TransportDelivery {
  import opened Wrappers
  import opened TransportModel
  import opened TransportQuiescence

  /** The worker takes `n` messages one after the other, and `ws.send` succeeds for each. */
  function Deliver(q: nat, n: nat): seq<Event> {
    if n == 0 then [] else [Dispatch(q), SendDone(q, true)] + Deliver(q, n - 1)
  }

  /** The successful runs of the callers' own callbacks. */
  function Confirmations(ts: seq<Task>): seq<Ran> {
    if ts == [] then []
    else
      (match ts[0].cb case Caller(b) => [Ran(b, Some(ts[0].ticket), true)] case LogOnly => [])
      + Confirmations(ts[1..])
  }

  /** Queue `q` may run, and a look at the socket would find it open. */
  ghost predicate Flowing(s: State, q: nat) {
    q < |s.queues| && !s.queues[q].paused && s.queues[q].flight == None && IsConnected(s) && MaxRetries(s.conf) >= 0
  }

  /** All of `ts` has been handed over, sent and confirmed, in this order. */
  ghost predicate Delivered(s: State, s': State, ts: seq<Task>) {
    && s'.hist.handed == s.hist.handed + ts
    && s'.hist.sent == s.hist.sent + ts
    && s'.hist.ran == s.hist.ran + Confirmations(ts)
  }

  lemma HandsFirst(s: State, q: nat)
    requires Flowing(s, q) && s.queues[q].waiting != []
    ensures var ts := s.queues[q].waiting;
            var busy := s.queues[q].(waiting := ts[1..], flight := Some(Flight(ts[0], Sending)));
            Step(s, Dispatch(q)) == s.(queues := s.queues[q := busy],
                                       hist := s.hist.(handed := s.hist.handed + [ts[0]]))
  {
    var ts, s1 := s.queues[q].waiting, TakeNext(s, q);
    assert Step(s, Dispatch(q)) == Wait(s1, q, ts[0], s.ws.value, MaxRetries(s.conf));
    assert Poll(IsOpen(s1, s.ws.value), MaxRetries(s.conf)) == Opened;
  }

  lemma SendsFirst(s: State, q: nat, task: Task)
    requires q < |s.queues| && s.queues[q].flight == Some(Flight(task, Sending)) && !s.queues[q].paused
    requires IsConnected(s) && MaxRetries(s.conf) >= 0
    ensures var s' := Step(s, SendDone(q, true));
            && Flowing(s', q) && s'.queues[q].waiting == s.queues[q].waiting && s'.hist.handed == s.hist.handed
            && s'.hist.sent == s.hist.sent + [task] && s'.hist.ran == s.hist.ran + Confirmations([task])
            && SameWorld(s, s') && s'.queues == s.queues[q := s.queues[q].(flight := None)]
  {
    var s1 := SetFlight(s, q, None).(hist := s.hist.(sent := s.hist.sent + [task]));
    FinishFrame(s1, q, task, true);
    assert Step(s, SendDone(q, true)) == Finish(s1, q, task, true);
    assert [task][1..] == [] && Confirmations([]) == [];
  }

  lemma FirstDelivered(s: State, q: nat)
    requires Flowing(s, q) && s.queues[q].waiting != []
    ensures var s' := Step(Step(s, Dispatch(q)), SendDone(q, true));
            && Flowing(s', q) && Delivered(s, s', [s.queues[q].waiting[0]]) && SameWorld(s, s')
            && s'.queues == s.queues[q := s.queues[q].(waiting := s.queues[q].waiting[1..])]
  {
    HandsFirst(s, q);
    SendsFirst(Step(s, Dispatch(q)), q, s.queues[q].waiting[0]);
  }

  lemma DeliveredMore(s: State, s1: State, s2: State, ts: seq<Task>)
    requires ts != [] && Delivered(s, s1, [ts[0]]) && Delivered(s1, s2, ts[1..])
    ensures Delivered(s, s2, ts)
  {
    assert ts == [ts[0]] + ts[1..] && [ts[0]][1..] == [];
    assert Confirmations([ts[0]]) + Confirmations(ts[1..]) == Confirmations(ts);
  }

  lemma RunTwoMore(s: State, q: nat, n: nat)
    requires n > 0
    ensures Run(s, Deliver(q, n)) == Run(Step(Step(s, Dispatch(q)), SendDone(q, true)), Deliver(q, n - 1))
  {
    var es := Deliver(q, n);
    assert es[1..] == [SendDone(q, true)] + Deliver(q, n - 1) && es[1..][1..] == Deliver(q, n - 1);
    assert Run(s, es) == Run(Step(s, es[0]), es[1..]);
  }

  lemma {:induction false} DeliversWaiting(s: State, q: nat)
    requires Flowing(s, q)
    ensures var s', ts := Run(s, Deliver(q, |s.queues[q].waiting|)), s.queues[q].waiting;
            Delivered(s, s', ts) && q < |s'.queues| && Idle(s'.queues[q])
    decreases |s.queues[q].waiting|
  {
    var ts := s.queues[q].waiting;
    if ts != [] {
      var s1 := Step(Step(s, Dispatch(q)), SendDone(q, true));
      FirstDelivered(s, q);
      DeliversWaiting(s1, q);
      RunTwoMore(s, q, |ts|);
      DeliveredMore(s, s1, Run(s1, Deliver(q, |ts| - 1)), ts);
    }
  }

  /** Main result: when the socket of the transport opens, whatever waits in its queue, messages kept from failed
      attempts included, can be sent in order, each once, with a success for every caller that has not been told yet. */
  lemma OpenDelivers(s: State, k: nat)
    requires Enabled(s, SocketOpen(k)) && s.ws == Some(k) && MaxRetries(s.conf) >= 0
    requires HasQueue(s) && s.queues[s.sendingQueue.value].flight == None
    ensures var q := s.sendingQueue.value;
            var s', ts := Run(Step(s, SocketOpen(k)), Deliver(q, |s.queues[q].waiting|)), s.queues[q].waiting;
            Delivered(s, s', ts) && q < |s'.queues| && Idle(s'.queues[q])
  {
    DeliversWaiting(Step(s, SocketOpen(k)), s.sendingQueue.value);
  }

  /** The condition on the retries is needed: with a negative number a task fails before it looks at the socket, so
      on an open connection a task is handed over exactly if the number is not negative, and put back otherwise. */
  lemma HandedIfRetries(s: State, q: nat)
    requires Enabled(s, Dispatch(q)) && IsConnected(s)
    ensures var task, s' := s.queues[q].waiting[0], Step(s, Dispatch(q));
            && s'.hist.handed == s.hist.handed + (if MaxRetries(s.conf) >= 0 then [task] else [])
            && (MaxRetries(s.conf) < 0 && s.sendingQueue == Some(q) ==>
                  s'.queues[q].waiting == [task.(cb := LogOnly)] + s.queues[q].waiting[1..])
  {
    var task, s1 := s.queues[q].waiting[0], TakeNext(s, q);
    assert Step(s, Dispatch(q)) == Wait(s1, q, task, s.ws.value, MaxRetries(s.conf));
    assert IsOpen(s1, s.ws.value);
  }
}
