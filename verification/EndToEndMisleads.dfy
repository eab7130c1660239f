/** The other half: an id that is not spent can mislead, by a run that hands over an older message and not the new
    one. */
module EndToEndMisleads {
  import opened Wrappers
  import E = EventEmitter
  import T = TransportModel
  import B = TransportBalance
  import O = TransportOutcome
  import Q = TransportQuiescence
  import R = TransportReach
  import H = TransportHandOver
  import U = UmsModel
  import P = UmsProofs
  import L = LifecycleModel
  import LP = LifecycleProofs
  import opened EndToEnd
  import opened EndToEndReuse

  // ---------- the new message waits ----------

  /** The task made for the last accepted message, as it waits for the first time. */
  function NewTask(tr: T.State): T.Task
    requires tr.hist.accepted != []
  {
    var t := |tr.hist.accepted| - 1;
    T.Task(t, tr.hist.accepted[t].msg, T.Caller(tr.hist.accepted[t].batch))
  }

  lemma SendWaits(tr: T.State, msg: T.Message)
    requires T.HasQueue(tr)
    ensures var tr' := T.Step(tr, T.Send([msg]));
            && tr'.hist.accepted == tr.hist.accepted + [T.Accepted(msg, tr.hist.batches)]
            && tr'.hist.ran == tr.hist.ran && tr'.hist.batches == tr.hist.batches + 1
            && H.LastIs(tr', tr.sendingQueue.value, NewTask(tr'))
  {
    Q.SendOne(tr, msg);
  }

  lemma SendBringsNoDeath(tr: T.State, msg: T.Message, t: nat)
    requires T.HasQueue(tr) && t < |tr.hist.accepted| && R.Dead(T.Step(tr, T.Send([msg])), t)
    ensures R.Dead(tr, t)
  {
    var tr' := T.Step(tr, T.Send([msg]));
    Q.SendOne(tr, msg);
    if !R.Dropped(tr.hist, t) {
      var j: nat :| R.Stuck(tr', j) && R.Waits(tr', j, t);
      var i :| 0 <= i < |tr'.queues[j].waiting| && tr'.queues[j].waiting[i].ticket == t;
      assert i < |tr.queues[j].waiting| && tr.queues[j].waiting[i].ticket == t;
      assert R.Stuck(tr, j) && R.Waits(tr, j, t);
    }
  }

  lemma RanWitness(ran: seq<T.Ran>, i: nat, t: nat)
    requires i < |ran| && ran[i].ticket == Some(t)
    ensures B.RanFor(ran, t) >= 1
  {
    if i > 0 { RanWitness(ran[1..], i - 1, t); }
  }

  /** While the new task waits its callback has not run. */
  lemma WaitingHasNotRun(tr: T.State, c: nat, w: T.Task)
    requires B.Balanced(tr, [], []) && H.LastIs(tr, c, w) && w.cb.Caller?
    ensures B.RanFor(tr.hist.ran, w.ticket) == 0
  {
    var ws, l := tr.queues[c].waiting, B.ByOwner(w.ticket);
    B.CountAtLeast(ws, |ws| - 1, l);
    B.HeldAtLeast(tr.queues, c, l);
    assert B.Owned(tr, w.ticket) + B.Count([], l) == B.Expected(tr, w.ticket);
  }

  /** No callback of batch `b` runs from `from` on. */
  ghost predicate QuietFrom(ran: seq<T.Ran>, from: nat, b: nat) {
    forall i :: from <= i < |ran| ==> ran[i].batch != b
  }

  /** If the new task still waits at the end of a run without sends, no callback of its batch has run. */
  lemma WaitingIsQuiet(s: State, es: seq<T.Event>, c: nat, u: nat)
    requires Inv(s) && O.NoSend(es) && u < |s.tr.hist.accepted|
    requires var a := s.tr.hist.accepted[u]; H.LastIs(T.Run(s.tr, es), c, T.Task(u, a.msg, T.Caller(a.batch)))
    ensures QuietFrom(T.Run(s.tr, es).hist.ran, |s.tr.hist.ran|, s.tr.hist.accepted[u].batch)
  {
    var tr', a := T.Run(s.tr, es), s.tr.hist.accepted[u];
    O.RunExtends(s.tr, es);
    O.RunValid(s.tr, es);
    B.RunBalanced(s.tr, es);
    WaitingHasNotRun(tr', c, T.Task(u, a.msg, T.Caller(a.batch)));
    var ran := tr'.hist.ran;
    forall i | |s.tr.hist.ran| <= i < |ran| ensures ran[i].batch != a.batch {
      assert O.RanFits(tr'.hist, ran[i]);
      if ran[i].ticket == Some(u) { RanWitness(ran, i, u); }
    }
  }

  // ---------- the new request waits ----------

  /** Request `r` listens, and every other request with its id is settled. */
  ghost predicate Listens(ums: U.State, r: nat) {
    && U.Registered(ums, r)
    && forall q :: 0 <= q < |ums.requests| && q != r && ums.requests[q].id == ums.requests[r].id
                   ==> ums.requests[q].status != U.Unsettled
  }

  lemma OtherFails(life: L.State, q: nat, r: nat)
    requires LP.Inv(life) && Listens(life.ums, r) && q != r
    ensures var life' := L.Step(life, L.Client(U.SendFails(q))); Listens(life'.ums, r) && LP.Inv(life')
  {
    LP.StepInv(life, L.Client(U.SendFails(q)));
  }

  lemma {:induction false} OthersFail(life: L.State, ran: seq<T.Ran>, sent: seq<Sent>, r: nat)
    requires LP.Inv(life) && Listens(life.ums, r)
    requires forall i :: 0 <= i < |ran| && ran[i].batch < |sent| ==> sent[ran[i].batch].req != r
    ensures Listens(FailAll(life, ran, sent).ums, r)
    decreases |ran|
  {
    if ran != [] {
      var one := ran[0];
      if !one.ok && one.batch < |sent| { OtherFails(life, sent[one.batch].req, r); }
      OthersFail(FailOne(life, one, sent), ran[1..], sent, r);
    }
  }

  // ---------- running the transport alone ----------

  function OnTransport(es: seq<T.Event>): seq<Event> {
    if es == [] then [] else [Transport(es[0])] + OnTransport(es[1..])
  }

  lemma TransportListens(s: State, te: T.Event, r: nat, b: nat)
    requires Inv(s) && !te.Send? && Listens(s.life.ums, r) && b < |s.sent| && s.sent[b].req == r
    requires QuietFrom(T.Step(s.tr, te).hist.ran, |s.tr.hist.ran|, b)
    ensures Listens(Step(s, Transport(te)).life.ums, r)
  {
    O.StepExtends(s.tr, te);
    var news := T.Step(s.tr, te).hist.ran[|s.tr.hist.ran|..];
    forall i | 0 <= i < |news| && news[i].batch < |s.sent| ensures s.sent[news[i].batch].req != r {
      assert news[i] == T.Step(s.tr, te).hist.ran[|s.tr.hist.ran| + i];
    }
    OthersFail(s.life, news, s.sent, r);
  }

  /** The request goes on listening while the transport runs, if no callback of its batch runs. */
  lemma {:induction false} RunTransport(s: State, es: seq<T.Event>, r: nat, b: nat)
    requires Inv(s) && O.NoSend(es) && Listens(s.life.ums, r) && b < |s.sent| && s.sent[b].req == r
    requires QuietFrom(T.Run(s.tr, es).hist.ran, |s.tr.hist.ran|, b)
    ensures var s' := Run(s, OnTransport(es));
            && Inv(s') && s'.tr == T.Run(s.tr, es) && s'.sent == s.sent && s'.received == s.received
            && Listens(s'.life.ums, r)
    decreases |es|
  {
    if es != [] {
      var te, s1 := es[0], Step(s, Transport(es[0]));
      O.StepExtends(s.tr, te);
      O.RunExtends(s1.tr, es[1..]);
      var ran1, ran := s1.tr.hist.ran, T.Run(s.tr, es).hist.ran;
      assert T.Run(s.tr, es) == T.Run(s1.tr, es[1..]);
      forall i | |s.tr.hist.ran| <= i < |ran1| ensures ran1[i].batch != b { assert ran1[i] == ran[i]; }
      TransportListens(s, te, r, b);
      StepInv(s, Transport(te));
      RunTransport(s1, es[1..], r, b);
      assert OnTransport(es)[1..] == OnTransport(es[1..]);
    }
  }

  lemma {:induction false} RunAppend(s: State, a: seq<Event>, b: seq<Event>)
    ensures Run(s, a + b) == Run(Run(s, a), b)
    decreases |a|
  {
    if a == [] {
      assert a + b == b;
    } else {
      assert (a + b)[1..] == a[1..] + b;
      RunAppend(Step(s, a[0]), a[1..], b);
    }
  }

  // ---------- the request and the answer ----------

  /** A request with this id would wait for its response: the client is started, the transport has a queue, and every
      earlier request with the id is settled. */
  ghost predicate WouldWait(s: State, id: string) {
    && s.life.ums.started && T.HasQueue(s.tr)
    && forall q :: 0 <= q < |s.life.ums.requests| && s.life.ums.requests[q].id == id
                   ==> s.life.ums.requests[q].status != U.Unsettled
  }

  lemma SendListens(ums: U.State, id: string)
    requires P.Inv(ums) && ums.started
    requires forall q :: 0 <= q < |ums.requests| && ums.requests[q].id == id ==> ums.requests[q].status != U.Unsettled
    ensures var ums', r := U.Step(ums, U.Send(id, true)), |ums.requests|;
            && E.ListenersOf(ums.responses, id) == [] && Listens(ums', r)
            && ums'.requests[r].id == id
  {
    assert id in ums.responses ==> P.Owns(ums, id);
    var r, ums' := |ums.requests|, U.Step(ums, U.Send(id, true));
    assert ums' == U.Register(ums, id);
    assert E.ListenersOf(ums'.responses, id) == [E.Listener(r, true)];
  }

  lemma RequestListens(s: State, id: string, body: string)
    requires P.Inv(s.life.ums) && WouldWait(s, id)
    ensures var s', r, msg := Step(s, Request(id, body)), |s.life.ums.requests|, T.Message(id, body);
            && s'.sent == s.sent + [Sent(r, msg)] && s'.tr == T.Step(s.tr, T.Send([msg]))
            && Listens(s'.life.ums, r) && s'.life.ums.requests[r].id == id
  {
    SendListens(s.life.ums, id);
    assert Step(s, Request(id, body)).life.ums == U.Step(s.life.ums, U.Send(id, true));
  }

  function AnswerTo(id: string): U.Incoming {
    U.Message(Some(id), None, "")
  }

  lemma AnswerResolvesListener(ums: U.State, r: nat)
    requires P.Inv(ums) && U.Registered(ums, r) && ums.subs >= 1
    ensures var ums' := U.Step(ums, U.Receive(AnswerTo(ums.requests[r].id)));
            r < |ums'.requests| && ums'.requests[r].status.Resolved?
  {
    P.ResponseHandledOnce(ums, AnswerTo(ums.requests[r].id), ums.subs);
  }

  lemma TwoSteps(s: State, a: Event, b: Event)
    ensures Run(s, [a, b]) == Step(Step(s, a), b)
  {
    assert [a, b][1..] == [b] && [b][1..] == [];
    assert Run(s, [a, b]) == Run(Step(s, a), [b]) == Run(Step(Step(s, a), b), []);
  }

  lemma AnswerStep(s: State, id: string, r: nat)
    requires P.Inv(s.life.ums) && U.Registered(s.life.ums, r) && s.life.ums.requests[r].id == id && s.life.ums.subs >= 1
    requires id in s.received
    ensures var s' := Step(s, ServerAnswers(AnswerTo(id))); s'.tr == s.tr && s'.sent == s.sent && IsResolved(s', r)
  {
    AnswerResolvesListener(s.life.ums, r);
    assert Step(s, ServerAnswers(AnswerTo(id))).life.ums == U.Step(s.life.ums, U.Receive(AnswerTo(id)));
  }

  /** The server receives an older message and answers it, which resolves the request that listens for its id. */
  lemma AnswersWrongly(s: State, id: string, r: nat) returns (es: seq<Event>)
    requires P.Inv(s.life.ums) && U.Registered(s.life.ums, r) && s.life.ums.requests[r].id == id && s.life.ums.subs >= 1
    requires WasHanded(s.tr, id)
    ensures var s' := Run(s, es); s'.tr == s.tr && s'.sent == s.sent && IsResolved(s', r)
  {
    var k :| k in s.tr.hist.handed && k.msg.id == id;
    var i: nat :| i < |s.tr.hist.handed| && s.tr.hist.handed[i] == k;
    es := [ServerReceives(i), ServerAnswers(AnswerTo(id))];
    TwoSteps(s, ServerReceives(i), ServerAnswers(AnswerTo(id)));
    var s1 := Step(s, ServerReceives(i));
    assert s1 == s.(received := s.received + {id});
    AnswerStep(s1, id, r);
  }

  // ---------- a client that nobody has answered yet ----------

  function OnLife(les: seq<L.Event>): seq<Event> {
    if les == [] then [] else [Life(les[0])] + OnLife(les[1..])
  }

  lemma {:induction false} RunLife(s: State, les: seq<L.Event>)
    requires forall le :: le in les ==> !le.Client?
    ensures Run(s, OnLife(les)) == s.(life := L.Run(s.life, les))
    decreases |les|
  {
    if les != [] {
      RunLife(Step(s, Life(les[0])), les[1..]);
      assert OnLife(les)[1..] == OnLife(les[1..]);
    }
  }

  /** A start can still be completed, so that a response is heard, while the request goes on listening. */
  lemma CompletesStart(s: State, r: nat) returns (es: seq<Event>)
    requires LP.Inv(s.life) && U.Registered(s.life.ums, r)
    ensures var s' := Run(s, es);
            && s'.tr == s.tr && s'.sent == s.sent && P.Inv(s'.life.ums) && s'.life.ums.subs >= 1
            && U.Registered(s'.life.ums, r) && s'.life.ums.requests[r].id == s.life.ums.requests[r].id
  {
    var les := LP.CanCompleteStart(s.life);
    RunLife(s, les);
    es := OnLife(les);
  }

  lemma UnhandedOwn(s: State, c: nat, u: nat, w: T.Task)
    requires Inv(s) && u < |s.tr.hist.accepted| && H.LastIs(s.tr, c, w) && w.ticket == u
    ensures !OwnHanded(s, OwnerOf(s, u))
  {
    assert R.Waits(s.tr, c, u);
    R.WaitingNotHanded(s.tr, c, u);
    forall k | k in s.tr.hist.handed ensures OwnerOf(s, k.ticket) != OwnerOf(s, u) {
      HandedMessage(s, k);
      if OwnerOf(s, k.ticket) == OwnerOf(s, u) { OwnersDiffer(s, k.ticket, u); }
    }
  }

  // ---------- the second half ----------

  /** While the new message `u` waits to the end of a run of the transport, its request listens and is not handed
      over. */
  lemma WaitsThrough(s: State, es: seq<T.Event>, r: nat, c: nat, t: nat)
    requires Inv(s) && O.NoSend(es) && s.tr.hist.accepted != [] && Listens(s.life.ums, r)
    requires OwnerOf(s, NewTask(s.tr).ticket) == r
    requires H.LastIs(T.Run(s.tr, es), c, NewTask(s.tr)) && R.WasHanded(T.Run(s.tr, es), t)
    requires t < |s.tr.hist.accepted| && s.tr.hist.accepted[t].msg.id == s.life.ums.requests[r].id
    ensures var s2, id := Run(s, OnTransport(es)), s.life.ums.requests[r].id;
            && Inv(s2) && Listens(s2.life.ums, r) && s2.life.ums.requests[r].id == id
            && !OwnHanded(s2, r) && WasHanded(s2.tr, id)
  {
    var u := NewTask(s.tr).ticket;
    WaitingIsQuiet(s, es, c, u);
    RunTransport(s, es, r, s.tr.hist.accepted[u].batch);
    KeepsIds(s, es, r);
    O.RunExtends(s.tr, es);
    var s2 := Run(s, OnTransport(es));
    UnhandedOwn(s2, c, u, NewTask(s.tr));
    var k :| k in s2.tr.hist.handed && k.ticket == t;
    HandedMessage(s2, k);
  }

  /** The transport can hand over the older message `t` while the new message waits and its request listens. */
  lemma OlderGoesFirst(s: State, id: string, body: string, t: nat) returns (es: seq<T.Event>)
    requires Inv(s) && WouldWait(s, id)
    requires t < |s.tr.hist.accepted| && s.tr.hist.accepted[t].msg.id == id && !R.Dead(s.tr, t)
    ensures var s1, r := Step(s, Request(id, body)), |s.life.ums.requests|;
            var s2 := Run(s1, OnTransport(es));
            && Inv(s2) && Listens(s2.life.ums, r) && s2.life.ums.requests[r].id == id
            && !OwnHanded(s2, r) && WasHanded(s2.tr, id)
  {
    var s1 := Step(s, Request(id, body));
    StepInv(s, Request(id, body));
    RequestListens(s, id, body);
    SendWaits(s.tr, T.Message(id, body));
    if R.Dead(s1.tr, t) { SendBringsNoDeath(s.tr, T.Message(id, body), t); }
    es := H.CanHand(s1.tr, t);
    WaitsThrough(s1, es, |s.life.ums.requests|, s.tr.sendingQueue.value, t);
  }

  lemma {:induction false} KeepsIds(s: State, es: seq<T.Event>, r: nat)
    requires Inv(s) && O.NoSend(es) && r < |s.life.ums.requests|
    ensures var ums' := Run(s, OnTransport(es)).life.ums;
            r < |ums'.requests| && ums'.requests[r].id == s.life.ums.requests[r].id
    decreases |es|
  {
    if es != [] {
      O.StepExtends(s.tr, es[0]);
      FailAllOnlyLoses(s.life, T.Step(s.tr, es[0]).hist.ran[|s.tr.hist.ran|..], s.sent, r);
      StepInv(s, Transport(es[0]));
      KeepsIds(Step(s, Transport(es[0])), es[1..], r);
      assert OnTransport(es)[1..] == OnTransport(es[1..]);
    }
  }

  /** Some continuation resolves the new request although its own message was never handed to the socket. */
  lemma UnspentMisleads(timeout: nat, before: seq<Event>, id: string, body: string) returns (es: seq<Event>)
    requires WouldWait(Run(Init(timeout), before), id) && !Spent(Run(Init(timeout), before), id)
    ensures var s := Run(Init(timeout), before);
            var s', r := Run(Step(s, Request(id, body)), es), |s.life.ums.requests|;
            IsResolved(s', r) && !OwnHanded(s', r)
  {
    var s := Run(Init(timeout), before);
    InitInv(timeout);
    RunInv(Init(timeout), before);
    var t: nat :| t < |s.tr.hist.accepted| && s.tr.hist.accepted[t].msg.id == id && !R.Dead(s.tr, t);
    var tes := OlderGoesFirst(s, id, body, t);
    var s1, r := Step(s, Request(id, body)), |s.life.ums.requests|;
    var s2 := Run(s1, OnTransport(tes));
    var ups := CompletesStart(s2, r);
    var rest := AnswersWrongly(Run(s2, ups), id, r);
    RunAppend(s2, ups, rest);
    RunAppend(s1, OnTransport(tes), ups + rest);
    es := OnTransport(tes) + (ups + rest);
    SameRecordsSameOwn(s2, Run(s1, es), r);
  }

  lemma SameRecordsSameOwn(s: State, s': State, r: nat)
    requires s'.tr == s.tr && s'.sent == s.sent && !OwnHanded(s, r)
    ensures !OwnHanded(s', r)
  {
    assert forall u: nat :: OwnerOf(s', u) == OwnerOf(s, u);
  }

  // ---------- the main result ----------

  /** In every continuation, a request made now with this id resolves only if its own message was handed over, once. */
  ghost predicate SafeToReuse(s: State, id: string, body: string) {
    forall es: seq<Event> ::
      IsResolved(Run(Step(s, Request(id, body)), es), |s.life.ums.requests|)
      ==> OwnHandedOnce(Run(Step(s, Request(id, body)), es), |s.life.ums.requests|)
  }

  /** Main result. For a request that would wait for its response, in any reachable state of client, transport and wire:
      its id is safe to use if and only if it is spent, that is, no accepted message with it was handed to the socket,
      is running, or waits in a queue that can still run. */
  lemma ReuseSafeIff(timeout: nat, before: seq<Event>, id: string, body: string)
    requires WouldWait(Run(Init(timeout), before), id)
    ensures SafeToReuse(Run(Init(timeout), before), id, body) <==> Spent(Run(Init(timeout), before), id)
  {
    var s := Run(Init(timeout), before);
    if Spent(s, id) {
      forall es: seq<Event> | IsResolved(Run(Step(s, Request(id, body)), es), |s.life.ums.requests|)
        ensures OwnHandedOnce(Run(Step(s, Request(id, body)), es), |s.life.ums.requests|)
      {
        SpentIsSafe(timeout, before, id, body, es);
      }
    } else {
      var es := UnspentMisleads(timeout, before, id, body);
      var s1, r := Step(s, Request(id, body)), |s.life.ums.requests|;
      if OwnHandedOnce(Run(s1, es), r) { OnceIsHanded(Run(s1, es), r); }
    }
  }

  lemma OnceIsHanded(s: State, r: nat)
    requires OwnHandedOnce(s, r)
    ensures OwnHanded(s, r)
  {
    var t: nat :| t < |s.tr.hist.accepted| && OwnerOf(s, t) == r && B.Count(s.tr.hist.handed, B.ByTicket(t)) == 1;
    var i := B.CountWitness(s.tr.hist.handed, B.ByTicket(t));
    assert s.tr.hist.handed[i] in s.tr.hist.handed;
  }
}
