/** What each call of the client and each incoming message does, from every reachable state: which request a response
    resolves, which listeners a notification reaches and in which order, why a request is rejected, and when. */
module UmsMessages {
  import opened Wrappers
  import opened EventEmitter
  import opened UmsModel
  import opened UmsProofs

  // ---------- responses ----------

  lemma OnlyListener(s: State, id: string) returns (r: nat)
    requires TableOk(s) && id in s.responses
    ensures s.responses[id] == [Listener(r, true)]
    ensures r < |s.requests| && s.requests[r].status == Unsettled && s.requests[r].id == id
  {
    assert Owns(s, id);
    r := s.responses[id][0].fn;
  }

  lemma AnswerResolves(s: State, id: string, m: Incoming) returns (r: nat)
    requires Inv(s) && s.subs >= 1 && id in s.responses && m.Message? && m.reqId == Some(id)
    ensures s.responses[id] == [Listener(r, true)]
    ensures r < |s.requests| && s.requests[r].id == id && s.requests[r].status == Unsettled
    ensures Step(s, Receive(m)) == s.(requests := s.requests[r := s.requests[r].(status := Resolved(m))],
                                      responses := s.responses - {id},
                                      thrown := s.thrown + if s.subs > 1 && id == "error" then 1 else 0)
  {
    r := OnlyListener(s, id);
    EmitResponseIs(s, id, m);
    EmitResponseInv(s, id, m);
    if s.subs > 1 { UnheardResponse(HandleOne(s, m), m, s.subs - 1); }
  }

  /** Main result. In every reachable state of a client that has completed a start, a message that carries the id of a
      request that listens resolves this request, and no other, with this message, whatever type and body it has. (With
      several handlers, the second one throws for the id "error", which then is unheard.) */
  lemma ResponseResolves(timeout: nat, es: seq<Event>, id: string, kind: Option<string>, body: string) returns (r: nat)
    requires var s := Run(Init(timeout), es); s.subs >= 1 && id in s.responses
    ensures var s := Run(Init(timeout), es);
            var m := Message(Some(id), kind, body);
            && s.responses[id] == [Listener(r, true)]
            && r < |s.requests| && s.requests[r].id == id && s.requests[r].status == Unsettled
            && Step(s, Receive(m)) == s.(requests := s.requests[r := s.requests[r].(status := Resolved(m))],
                                         responses := s.responses - {id},
                                         thrown := s.thrown + if s.subs > 1 && id == "error" then 1 else 0)
  {
    RunInv(Init(timeout), es);
    r := AnswerResolves(Run(Init(timeout), es), id, Message(Some(id), kind, body));
  }

  /** A message with an id that nobody listens for changes nothing; it throws for the id "error". */
  lemma ResponseUnheard(timeout: nat, es: seq<Event>, id: string, kind: Option<string>, body: string)
    requires id !in Run(Init(timeout), es).responses
    ensures var s := Run(Init(timeout), es);
            Step(s, Receive(Message(Some(id), kind, body)))
            == s.(thrown := s.thrown + if s.subs > 0 && id == "error" then 1 else 0)
  {
    var s, m := Run(Init(timeout), es), Message(Some(id), kind, body);
    RunInv(Init(timeout), es);
    if s.subs > 0 { UnheardResponse(s, m, s.subs); }
  }

  /** Before the first completed start nothing is received. */
  lemma NothingHeardWithoutStart(s: State, m: Incoming)
    requires s.subs == 0
    ensures Step(s, Receive(m)) == s
  {
  }

  // ---------- notifications ----------

  /** The listeners of one type, in the order of registration. */
  function Hearers(s: State, kind: string): seq<Listener> {
    if kind in s.notifications then s.notifications[kind] else []
  }

  lemma {:induction false} RepeatLength(ds: seq<Delivery>, k: nat)
    ensures |Repeat(ds, k)| == k * |ds|
  {
    if k > 0 {
      RepeatLength(ds, k - 1);
      assert k * |ds| == (k - 1) * |ds| + |ds|;
    }
  }

  lemma {:induction false} RepeatAt(ds: seq<Delivery>, k: nat, round: nat, i: nat)
    requires round < k && i < |ds|
    ensures round * |ds| + i < |Repeat(ds, k)| && Repeat(ds, k)[round * |ds| + i] == ds[i]
  {
    if round > 0 {
      RepeatAt(ds, k - 1, round - 1, i);
      assert round * |ds| == (round - 1) * |ds| + |ds|;
    }
  }

  lemma Notifies(s: State, kind: string, m: Incoming)
    requires Inv(s) && kind != "" && m.Message? && m.reqId == None && m.kind == Some(kind)
    ensures var ls, s' := Hearers(s, kind), Step(s, Receive(m));
            && s' == s.(delivered := s.delivered + Repeat(Deliveries(Functions(ls), m), s.subs),
                        thrown := s.thrown + if s.subs > 0 && ls == [] && kind == "error" then 1 else 0)
  {
    if Hearers(s, kind) == [] && kind == "error" {
      EmitNotificationIs(s, kind, m);
      assert Deliveries(Functions([]), m) == [];
      EmptyRepeat(s.subs);
      assert s.delivered + [] == s.delivered;
    } else {
      HeardEachTime(s, m, s.subs);
    }
  }

  /** Main result. In every reachable state a notification changes nothing but what was delivered: to each listener of
      its type once per completed start. The type "error" throws if nobody listens for it. */
  lemma NotificationReaches(timeout: nat, es: seq<Event>, kind: string, body: string)
    requires kind != ""
    ensures var s := Run(Init(timeout), es);
            var ls, s' := Hearers(s, kind), Step(s, Receive(Message(None, Some(kind), body)));
            && s' == s.(delivered := s'.delivered,
                        thrown := s.thrown + if s.subs > 0 && ls == [] && kind == "error" then 1 else 0)
            && |s'.delivered| == |s.delivered| + s.subs * |ls| && s'.delivered[..|s.delivered|] == s.delivered
  {
    var s, m := Run(Init(timeout), es), Message(None, Some(kind), body);
    RunInv(Init(timeout), es);
    Notifies(s, kind, m);
    RepeatLength(Deliveries(Functions(Hearers(s, kind)), m), s.subs);
  }

  lemma DeliveredAt(s: State, kind: string, m: Incoming, round: nat, i: nat)
    requires Inv(s) && kind != "" && m.Message? && m.reqId == None && m.kind == Some(kind)
    requires round < s.subs && i < |Hearers(s, kind)|
    ensures var ls, d := Hearers(s, kind), Step(s, Receive(m)).delivered;
            var n := |s.delivered| + round * |ls| + i;
            n < |d| && d[n] == Delivery(ls[i].fn, m)
  {
    Notifies(s, kind, m);
    RepeatAt(Deliveries(Functions(Hearers(s, kind)), m), s.subs, round, i);
  }

  /** Main result, delivery by delivery: in each round, one per completed start, the listeners of the type get the
      notification in the order of their registration. */
  lemma DeliveredInOrder(timeout: nat, es: seq<Event>, kind: string, body: string, round: nat, i: nat)
    requires kind != ""
    requires var s := Run(Init(timeout), es); round < s.subs && i < |Hearers(s, kind)|
    ensures var s, m := Run(Init(timeout), es), Message(None, Some(kind), body);
            var ls, d := Hearers(s, kind), Step(s, Receive(m)).delivered;
            var n := |s.delivered| + round * |ls| + i;
            n < |d| && d[n] == Delivery(ls[i].fn, m)
  {
    RunInv(Init(timeout), es);
    DeliveredAt(Run(Init(timeout), es), kind, Message(None, Some(kind), body), round, i);
  }

  /** An empty message, or one with neither id nor type, changes nothing. */
  lemma OthersAreIgnored(s: State, body: string)
    ensures Step(s, Receive(Null)) == s
    ensures Step(s, Receive(Message(None, None, body))) == s
    ensures Step(s, Receive(Message(None, Some(""), body))) == s
  {
    IgnoredBy(s, Null, s.subs);
    IgnoredBy(s, Message(None, None, body), s.subs);
    IgnoredBy(s, Message(None, Some(""), body), s.subs);
  }

  lemma {:induction false} IgnoredBy(s: State, m: Incoming, k: nat)
    requires m == Null || (m.reqId == None && (m.kind == None || m.kind == Some("")))
    ensures HandleBy(s, m, k) == s
    decreases k
  {
    if k > 0 { IgnoredBy(s, m, k - 1); }
  }

  /** A started client registers a lasting listener behind those of its type; a stopped one registers nothing. */
  lemma ListenerAdded(s: State, kind: string, fn: nat)
    ensures Step(s, OnNotification(kind, fn))
            == if s.started then s.(notifications := s.notifications[kind := Hearers(s, kind) + [Listener(fn, false)]])
               else s
  {
  }

  // ---------- requests ----------

  /** What a call of `sendMessage` does, with the reason of an immediate rejection. */
  lemma SendIs(timeout: nat, es: seq<Event>, id: string, accepted: bool)
    ensures var s := Run(Init(timeout), es);
            var r, s' := |s.requests|, Step(s, Send(id, accepted));
            var why := if id in s.responses then Some(InProgress) else if !s.started then Some(NotStarted)
                       else if !accepted then Some(SendFailed) else None;
            && |s'.requests| == r + 1 && s'.requests[..r] == s.requests && s'.requests[r].id == id
            && s'.requests[r].status == (if why == None then Unsettled else Rejected(why.value))
            && (why != Some(InProgress) ==> s'.requests[r].timer && s'.requests[r].due == s.now + timeout)
            && (why == Some(InProgress) ==> !s'.requests[r].timer)
            && s' == s.(requests := s'.requests,
                        responses := if why == None then s.responses[id := [Listener(r, true)]] else s.responses)
  {
    var s := Run(Init(timeout), es);
    RunInv(Init(timeout), es);
    RunKeeps(Init(timeout), es);
    if id in s.responses {
      assert Owns(s, id);
    } else {
      assert [] + [Listener(|s.requests|, true)] == [Listener(|s.requests|, true)];
      assert s.responses[id := [Listener(|s.requests|, true)]] - {id} == s.responses;
    }
  }

  /** A late failure and a due timer settle an unsettled request, each with its own reason, and take all listeners of
      its id off the table; they leave a settled request alone. */
  lemma FailureIs(s: State, r: nat, timer: bool)
    requires r < |s.requests| && (timer ==> s.requests[r].timer && s.requests[r].due <= s.now)
    ensures var q := s.requests[r];
            var open := q.status == Unsettled;
            var why := if timer then TimedOut else SendFailed;
            Step(s, if timer then Timer(r) else SendFails(r))
            == s.(requests := s.requests[r := q.(status := if open then Rejected(why) else q.status,
                                                 timer := q.timer && !timer)],
                  responses := if open then s.responses - {q.id} else s.responses)
  {
    assert s.requests[r := s.requests[r]] == s.requests;
  }

  /** No request times out before its time: whatever else happens, a request that waits is not rejected by its timer
      while less than the timeout has passed since it was sent. */
  lemma {:induction false} NotBeforeItsTime(s: State, r: nat, es: seq<Event>)
    requires r < |s.requests| && s.requests[r].status != Rejected(TimedOut) && Run(s, es).now < s.requests[r].due
    ensures r < |Run(s, es).requests| && Run(s, es).requests[r].status != Rejected(TimedOut)
    decreases |es|
  {
    if es != [] {
      var s1 := Step(s, es[0]);
      StepKeeps(s, es[0]);
      RunKeeps(s1, es[1..]);
      NotTimedOut(s, es[0], r);
      NotBeforeItsTime(s1, r, es[1..]);
    }
  }

  lemma NotTimedOut(s: State, e: Event, r: nat)
    requires r < |s.requests| && s.requests[r].status != Rejected(TimedOut) && s.now < s.requests[r].due
    ensures r < |Step(s, e).requests| && Step(s, e).requests[r].status != Rejected(TimedOut)
  {
    StepKeeps(s, e);
    if e.Receive? { ReceiveOnlyResolves(s, e.msg, s.subs, r); }
  }

  lemma {:induction false} ReceiveOnlyResolves(s: State, m: Incoming, k: nat, r: nat)
    requires r < |s.requests|
    ensures var s' := HandleBy(s, m, k);
            r < |s'.requests| && (s'.requests[r].status == s.requests[r].status || s'.requests[r].status.Resolved?)
    decreases k
  {
    if k > 0 {
      if m.Message? && m.reqId.Some? {
        var id := m.reqId.value;
        SettlesOnlyResolved(s.(responses := AfterEmit(s.responses, id)), Functions(ListenersOf(s.responses, id)), m, r);
      }
      ReceiveOnlyResolves(HandleOne(s, m), m, k - 1, r);
    }
  }

  lemma {:induction false} SettlesOnlyResolved(s: State, fns: seq<nat>, m: Incoming, r: nat)
    requires r < |s.requests|
    ensures var s' := SettleAll(s, fns, Resolved(m));
            && |s'.requests| == |s.requests|
            && (s'.requests[r].status == s.requests[r].status || s'.requests[r].status.Resolved?)
    decreases |fns|
  {
    if fns != [] { SettlesOnlyResolved(Settle(s, fns[0], Resolved(m)), fns[1..], m, r); }
  }

  /** The whole life of a request: sent by a started client, with an id that nobody listens for, and answered while it
      listens, it resolves with the answer; and it does not time out before the timeout has passed. */
  lemma SentAndAnswered(timeout: nat, before: seq<Event>, id: string, es: seq<Event>, kind: Option<string>,
                        body: string)
    requires var s := Run(Init(timeout), before); s.started && id !in s.responses
    requires var s := Run(Init(timeout), before);
             var s2 := Run(Step(s, Send(id, true)), es);
             s2.subs >= 1 && id in s2.responses && s2.responses[id] == [Listener(|s.requests|, true)]
    ensures var s := Run(Init(timeout), before);
            var s2, m := Run(Step(s, Send(id, true)), es), Message(Some(id), kind, body);
            var s3 := Step(s2, Receive(m));
            && |s.requests| < |s3.requests| == |s2.requests| && s3.requests[|s.requests|].status == Resolved(m)
            && (s2.now < s.now + timeout ==> s2.requests[|s.requests|].status != Rejected(TimedOut))
  {
    var s := Run(Init(timeout), before);
    SendIs(timeout, before, id, true);
    RunInv(Init(timeout), before);
    StepInv(s, Send(id, true));
    RunInv(Step(s, Send(id, true)), es);
    var r := AnswerResolves(Run(Step(s, Send(id, true)), es), id, Message(Some(id), kind, body));
    if Run(Step(s, Send(id, true)), es).now < s.now + timeout {
      NotBeforeItsTime(Step(s, Send(id, true)), |s.requests|, es);
    }
  }
}
