/** The client, its transport and the wire together: a response resolves the request that was really sent. */
module EndToEnd {
  import opened Wrappers
  import E = EventEmitter
  import T = TransportModel
  import B = TransportBalance
  import O = TransportOutcome
  import R = TransportReach
  import U = UmsModel
  import P = UmsProofs
  import L = LifecycleModel
  import LP = LifecycleProofs

  // ---------- the system ----------

  /** A request that reached `transport.sendMessage`; its index is the transport's batch. */
  datatype Sent = Sent(req: nat, msg: T.Message)

  datatype State = State(life: L.State, tr: T.State, sent: seq<Sent>, received: set<string>)

  datatype Event =
    | Request(id: string, body: string)
    | Transport(te: T.Event)
    | Life(le: L.Event)                  // what else happens to the client, its lifecycle included
    | ServerReceives(i: nat)             // the i-th message handed to the socket arrives
    | ServerAnswers(msg: U.Incoming)

  function Init(timeout: nat): State {
    State(L.Init(timeout), T.INIT, [], {})
  }

  /** `sendMessage` gets past its checks and calls the transport. */
  predicate ReachesTransport(s: State, id: string) {
    E.ListenersOf(s.life.ums.responses, id) == [] && s.life.ums.started
  }

  function DoRequest(s: State, id: string, body: string): State {
    if !ReachesTransport(s, id) then s.(life := L.Step(s.life, L.Client(U.Send(id, false))))
    else
      var msg := T.Message(id, body);
      s.(life := L.Step(s.life, L.Client(U.Send(id, T.HasQueue(s.tr)))),
         tr := T.Step(s.tr, T.Send([msg])),
         sent := s.sent + [Sent(|s.life.ums.requests|, msg)])
  }

  /** The requests whose transport promises have just been rejected fail in the same macrotask. */
  function FailAll(life: L.State, ran: seq<T.Ran>, sent: seq<Sent>): L.State
    decreases |ran|
  {
    if ran == [] then life else FailAll(FailOne(life, ran[0], sent), ran[1..], sent)
  }

  function FailOne(life: L.State, one: T.Ran, sent: seq<Sent>): L.State {
    if !one.ok && one.batch < |sent| then L.Step(life, L.Client(U.SendFails(sent[one.batch].req))) else life
  }

  function DoTransport(s: State, te: T.Event): State {
    var tr' := T.Step(s.tr, te);
    var news := if |s.tr.hist.ran| <= |tr'.hist.ran| then tr'.hist.ran[|s.tr.hist.ran|..] else [];
    s.(tr := tr', life := FailAll(s.life, news, s.sent))
  }

  /** Client events of their own: the others happen through requests, the transport and the server. */
  predicate Independent(le: L.Event) {
    le.Client? ==> !le.ce.Send? && !le.ce.SendFails? && !(le.ce.Receive? && U.IsResponse(le.ce.msg))
  }

  function Step(s: State, e: Event): State {
    match e
    case Request(id, body) => DoRequest(s, id, body)
    case Transport(te) => if te.Send? then s else DoTransport(s, te)
    case Life(le) => if Independent(le) then s.(life := L.Step(s.life, le)) else s
    case ServerReceives(i) =>
      if i < |s.tr.hist.handed| then s.(received := s.received + {s.tr.hist.handed[i].msg.id}) else s
    case ServerAnswers(msg) =>
      if U.IsResponse(msg) && msg.reqId.value in s.received
      then s.(life := L.Step(s.life, L.Client(U.Receive(msg)))) else s
  }

  function Run(s: State, es: seq<Event>): State
    decreases |es|
  {
    if es == [] then s else Run(Step(s, es[0]), es[1..])
  }

  // ---------- the invariant ----------

  /** Every accepted message is the only one of its batch and was sent for the request of that batch. */
  ghost predicate SentOk(s: State) {
    && |s.sent| == s.tr.hist.batches
    && (forall b :: 0 <= b < |s.sent| ==>
          s.sent[b].req < |s.life.ums.requests| && s.sent[b].msg.id == s.life.ums.requests[s.sent[b].req].id)
    && (forall b, c :: 0 <= b < c < |s.sent| ==> s.sent[b].req < s.sent[c].req)
    && (forall t :: 0 <= t < |s.tr.hist.accepted| ==>
          && s.tr.hist.accepted[t].batch < |s.sent|
          && s.tr.hist.accepted[t].msg == s.sent[s.tr.hist.accepted[t].batch].msg)
    && (forall t, u :: 0 <= t < u < |s.tr.hist.accepted| ==> s.tr.hist.accepted[t].batch < s.tr.hist.accepted[u].batch)
  }

  ghost predicate WasHanded(tr: T.State, id: string) {
    exists k :: k in tr.hist.handed && k.msg.id == id
  }

  ghost predicate AnswersOk(s: State) {
    && (forall id :: id in s.received ==> WasHanded(s.tr, id))
    && (forall r :: 0 <= r < |s.life.ums.requests| && s.life.ums.requests[r].status.Resolved? ==> Answered(s, r))
  }

  /** The response carries the request's own id, and the server received a message with it. */
  ghost predicate Answered(s: State, r: nat) {
    && r < |s.life.ums.requests| && s.life.ums.requests[r].status.Resolved?
    && var res := s.life.ums.requests[r].status.res;
       U.IsResponse(res) && res.reqId == Some(s.life.ums.requests[r].id) && s.life.ums.requests[r].id in s.received
  }

  ghost predicate Inv(s: State) {
    && LP.Inv(s.life) && O.Valid(s.tr) && B.Balanced(s.tr, [], [])
    && SentOk(s) && AnswersOk(s)
  }

  // ---------- the client's part ----------

  /** A promise is resolved only by a response with the request's id. */
  lemma ResolvedBy(ums: U.State, ce: U.Event, r: nat)
    requires P.Inv(ums) && r < |U.Step(ums, ce).requests| && U.Step(ums, ce).requests[r].status.Resolved?
    requires r < |ums.requests| ==> !ums.requests[r].status.Resolved?
    ensures r < |ums.requests| && ce.Receive? && U.IsResponse(ce.msg) && U.Registered(ums, r)
    ensures U.Step(ums, ce).requests[r].status == U.Resolved(ce.msg)
    ensures U.Step(ums, ce).requests[r].id == ce.msg.reqId.value
  {
    P.StepKeeps(ums, ce);
    if ce.Receive? { HandleResolves(ums, ce.msg, ums.subs, r); }
  }

  lemma {:induction false} HandleResolves(ums: U.State, msg: U.Incoming, k: nat, r: nat)
    requires P.Inv(ums) && r < |U.HandleBy(ums, msg, k).requests|
    requires U.HandleBy(ums, msg, k).requests[r].status.Resolved?
    requires r < |ums.requests| ==> !ums.requests[r].status.Resolved?
    ensures r < |ums.requests| && U.IsResponse(msg) && U.HandleBy(ums, msg, k).requests[r].status == U.Resolved(msg)
    ensures ums.requests[r].id == msg.reqId.value && U.Registered(ums, r)
    decreases k
  {
    if k > 0 {
      var s1 := U.HandleOne(ums, msg);
      P.HandleOneInv(ums, msg);
      P.HandleByKeeps(s1, msg, k - 1);
      if r < |s1.requests| && s1.requests[r].status.Resolved? {
        HandleOneResolves(ums, msg, r);
      } else if s1.thrown <= ums.thrown {
        HandleResolves(s1, msg, k - 1, r);
        P.HandleOneUnlists(ums, msg, r);
      }
    }
  }

  lemma HandleOneResolves(ums: U.State, msg: U.Incoming, r: nat)
    requires P.Inv(ums) && r < |U.HandleOne(ums, msg).requests| && U.HandleOne(ums, msg).requests[r].status.Resolved?
    requires r < |ums.requests| ==> !ums.requests[r].status.Resolved?
    ensures r < |ums.requests| && U.IsResponse(msg) && U.HandleOne(ums, msg).requests[r].status == U.Resolved(msg)
    ensures ums.requests[r].id == msg.reqId.value && U.Registered(ums, r)
  {
    if U.IsResponse(msg) {
      var id := msg.reqId.value;
      P.EmitResponseIs(ums, id, msg);
      if id in ums.responses { assert P.Owns(ums, id); }
    } else if U.IsNotification(msg) {
      P.EmitNotificationIs(ums, msg.kind.value, msg);
    }
  }

  /** A client step on its own keeps the system's invariant. */
  lemma ClientInv(s: State, ce: U.Event)
    requires Inv(s) && L.Independent(ce) && !ce.Send?
    requires ce.Receive? && U.IsResponse(ce.msg) ==> ce.msg.reqId.value in s.received
    ensures Inv(s.(life := L.Step(s.life, L.Client(ce))))
  {
    var s' := s.(life := L.Step(s.life, L.Client(ce)));
    LP.StepInv(s.life, L.Client(ce));
    P.StepKeeps(s.life.ums, ce);
    forall r | 0 <= r < |s'.life.ums.requests| && s'.life.ums.requests[r].status.Resolved? ensures Answered(s', r) {
      if r < |s.life.ums.requests| && s.life.ums.requests[r].status.Resolved? {
        assert Answered(s, r);
      } else {
        ResolvedBy(s.life.ums, ce, r);
      }
    }
  }

  lemma LifeKeepsRequests(life: L.State, le: L.Event)
    requires !le.Client?
    ensures L.Step(life, le).ums.requests == life.ums.requests
  {
    LP.StepProjects(life, le);
  }

  lemma LifeInv(s: State, le: L.Event)
    requires Inv(s) && Independent(le)
    ensures Inv(s.(life := L.Step(s.life, le)))
  {
    if le.Client? && L.Independent(le.ce) {
      ClientInv(s, le.ce);
    } else if !le.Client? {
      LifeKeepsRequests(s.life, le);
      LP.StepInv(s.life, le);
      SameRequestsInv(s, s.(life := L.Step(s.life, le)));
    }
  }

  lemma SameRequestsInv(s: State, s': State)
    requires Inv(s) && LP.Inv(s'.life) && s' == s.(life := s'.life) && s'.life.ums.requests == s.life.ums.requests
    ensures Inv(s')
  {
    forall r | 0 <= r < |s'.life.ums.requests| && s'.life.ums.requests[r].status.Resolved? ensures Answered(s', r) {
      assert Answered(s, r);
    }
  }

  lemma FailOneInv(s: State, one: T.Ran)
    requires Inv(s)
    ensures Inv(s.(life := FailOne(s.life, one, s.sent)))
  {
    if !one.ok && one.batch < |s.sent| {
      ClientInv(s, U.SendFails(s.sent[one.batch].req));
    }
  }

  lemma {:induction false} FailAllInv(s: State, ran: seq<T.Ran>)
    requires Inv(s)
    ensures Inv(s.(life := FailAll(s.life, ran, s.sent)))
    decreases |ran|
  {
    if ran != [] {
      FailOneInv(s, ran[0]);
      FailAllInv(s.(life := FailOne(s.life, ran[0], s.sent)), ran[1..]);
    }
  }

  // ---------- the steps ----------

  lemma TransportInv(s: State, te: T.Event)
    requires Inv(s) && !te.Send?
    ensures Inv(DoTransport(s, te))
  {
    var s1 := s.(tr := T.Step(s.tr, te));
    B.StepBalanced(s.tr, te);
    O.StepValid(s.tr, te);
    O.StepExtends(s.tr, te);
    forall id | id in s1.received ensures WasHanded(s1.tr, id) {
      assert WasHanded(s.tr, id);
      var k :| k in s.tr.hist.handed && k.msg.id == id;
      assert k in s1.tr.hist.handed;
    }
    forall r | 0 <= r < |s1.life.ums.requests| && s1.life.ums.requests[r].status.Resolved? ensures Answered(s1, r) {
      assert Answered(s, r);
    }
    FailAllInv(s1, s1.tr.hist.ran[|s.tr.hist.ran|..]);
  }

  lemma SendAccepts(tr: T.State, msg: T.Message)
    ensures var h, h' := tr.hist, T.Step(tr, T.Send([msg])).hist;
            && h'.batches == h.batches + 1 && h'.handed == h.handed
            && h'.accepted == if T.HasQueue(tr) then h.accepted + [T.Accepted(msg, h.batches)] else h.accepted
  {
    assert T.NewAccepted([msg], tr.hist.batches) == [T.Accepted(msg, tr.hist.batches)];
  }

  lemma SendAdds(ums: U.State, id: string, accepted: bool)
    ensures var ums' := U.Step(ums, U.Send(id, accepted));
            && |ums'.requests| == |ums.requests| + 1 && ums'.requests[|ums.requests|].id == id
            && !ums'.requests[|ums.requests|].status.Resolved?
            && ums'.requests[..|ums.requests|] == ums.requests
  {
  }

  lemma RequestLife(s: State, id: string, body: string)
    requires LP.Inv(s.life)
    ensures var s', n := DoRequest(s, id, body), |s.life.ums.requests|;
            && LP.Inv(s'.life)
            && |s'.life.ums.requests| == n + 1 && s'.life.ums.requests[..n] == s.life.ums.requests
            && s'.life.ums.requests[n].id == id && !s'.life.ums.requests[n].status.Resolved?
  {
    var accepted := ReachesTransport(s, id) && T.HasQueue(s.tr);
    LP.StepInv(s.life, L.Client(U.Send(id, accepted)));
    SendAdds(s.life.ums, id, accepted);
  }

  lemma RequestTransport(s: State, id: string, body: string)
    requires O.Valid(s.tr) && B.Balanced(s.tr, [], [])
    ensures var s' := DoRequest(s, id, body);
            && O.Valid(s'.tr) && B.Balanced(s'.tr, [], [])
            && s'.tr.hist.handed == s.tr.hist.handed && s'.received == s.received
  {
    B.StepBalanced(s.tr, T.Send([T.Message(id, body)]));
    O.StepValid(s.tr, T.Send([T.Message(id, body)]));
    SendAccepts(s.tr, T.Message(id, body));
  }

  lemma RequestInv(s: State, id: string, body: string)
    requires Inv(s)
    ensures Inv(DoRequest(s, id, body))
  {
    RequestLife(s, id, body);
    RequestTransport(s, id, body);
    RequestAnswersOk(s, DoRequest(s, id, body));
    RequestSentOk(s, id, body);
  }

  /** One more request, not resolved, and nothing more handed over or received. */
  lemma RequestAnswersOk(s: State, s': State)
    requires AnswersOk(s) && s'.received == s.received && s'.tr.hist.handed == s.tr.hist.handed
    requires var n := |s.life.ums.requests|;
             && |s'.life.ums.requests| == n + 1 && s'.life.ums.requests[..n] == s.life.ums.requests
             && !s'.life.ums.requests[n].status.Resolved?
    ensures AnswersOk(s')
  {
    forall x | x in s'.received ensures WasHanded(s'.tr, x) { assert WasHanded(s.tr, x); }
    forall r | 0 <= r < |s'.life.ums.requests| && s'.life.ums.requests[r].status.Resolved? ensures Answered(s', r) {
      assert s'.life.ums.requests[..|s.life.ums.requests|][r] == s.life.ums.requests[r];
      assert Answered(s, r);
    }
  }

  /** One more request, one more batch for it, and at most one more accepted message. */
  lemma GrowSentOk(s: State, s': State, one: Sent)
    requires SentOk(s) && s'.sent == s.sent + [one] && s'.tr.hist.batches == |s'.sent|
    requires |s'.life.ums.requests| == |s.life.ums.requests| + 1 && one.req == |s.life.ums.requests|
    requires s'.life.ums.requests[one.req].id == one.msg.id
    requires s'.life.ums.requests[..one.req] == s.life.ums.requests
    requires s'.tr.hist.accepted == s.tr.hist.accepted
             || s'.tr.hist.accepted == s.tr.hist.accepted + [T.Accepted(one.msg, |s.sent|)]
    ensures SentOk(s')
  {
    forall b | 0 <= b < |s.sent| ensures s'.life.ums.requests[s.sent[b].req].id == s.sent[b].msg.id {
      assert s'.life.ums.requests[..one.req][s.sent[b].req] == s.life.ums.requests[s.sent[b].req];
    }
  }

  lemma MoreRequests(s: State, s': State)
    requires SentOk(s) && s'.sent == s.sent && s'.tr == s.tr && s.life.ums.requests <= s'.life.ums.requests
    ensures SentOk(s')
  {
  }

  lemma RequestSentOk(s: State, id: string, body: string)
    requires SentOk(s)
    requires var qs, qs' := s.life.ums.requests, DoRequest(s, id, body).life.ums.requests;
             |qs'| == |qs| + 1 && qs'[..|qs|] == qs && qs'[|qs|].id == id
    ensures SentOk(DoRequest(s, id, body))
  {
    var s', one := DoRequest(s, id, body), Sent(|s.life.ums.requests|, T.Message(id, body));
    if ReachesTransport(s, id) {
      SendAccepts(s.tr, one.msg);
      assert s'.sent == s.sent + [one] && s'.tr == T.Step(s.tr, T.Send([one.msg]));
      GrowSentOk(s, s', one);
    } else {
      assert s'.sent == s.sent && s'.tr == s.tr;
      MoreRequests(s, s');
    }
  }

  lemma ReceiveInv(s: State, i: nat)
    requires Inv(s) && i < |s.tr.hist.handed|
    ensures Inv(Step(s, ServerReceives(i)))
  {
    var s' := Step(s, ServerReceives(i));
    forall id | id in s'.received ensures WasHanded(s'.tr, id) {
      if id in s.received { assert WasHanded(s.tr, id); } else { assert s.tr.hist.handed[i] in s.tr.hist.handed; }
    }
    forall r | 0 <= r < |s'.life.ums.requests| && s'.life.ums.requests[r].status.Resolved? ensures Answered(s', r) {
      assert Answered(s, r);
    }
  }

  lemma StepInv(s: State, e: Event)
    requires Inv(s)
    ensures Inv(Step(s, e))
  {
    match e
    case Request(id, body) => RequestInv(s, id, body);
    case Transport(te) => if !te.Send? { TransportInv(s, te); }
    case Life(le) => if Independent(le) { LifeInv(s, le); }
    case ServerReceives(i) => if i < |s.tr.hist.handed| { ReceiveInv(s, i); }
    case ServerAnswers(msg) =>
      if U.IsResponse(msg) && msg.reqId.value in s.received { ClientInv(s, U.Receive(msg)); }
  }

  lemma {:induction false} RunInv(s: State, es: seq<Event>)
    requires Inv(s)
    ensures Inv(Run(s, es))
    decreases |es|
  {
    if es != [] {
      StepInv(s, es[0]);
      RunInv(Step(s, es[0]), es[1..]);
    }
  }

  lemma InitInv(timeout: nat)
    ensures Inv(Init(timeout))
  {
    B.InitBalanced();
  }

  // ---------- whose message it was ----------

  /** The request for which the message with ticket `t` was sent. */
  function OwnerOf(s: State, t: nat): int {
    if t < |s.tr.hist.accepted| && s.tr.hist.accepted[t].batch < |s.sent|
    then s.sent[s.tr.hist.accepted[t].batch].req else -1
  }

  /** The own message of request `r` was handed to the socket. */
  ghost predicate OwnHanded(s: State, r: nat) {
    exists k :: k in s.tr.hist.handed && OwnerOf(s, k.ticket) == r
  }

  predicate IsResolved(s: State, r: nat) {
    r < |s.life.ums.requests| && s.life.ums.requests[r].status.Resolved?
  }

  lemma OwnersDiffer(s: State, t: nat, u: nat)
    requires SentOk(s) && t < |s.tr.hist.accepted| && u < |s.tr.hist.accepted| && OwnerOf(s, t) == OwnerOf(s, u)
    ensures t == u
  {
  }

  lemma OwnerHasId(s: State, t: nat)
    requires SentOk(s) && t < |s.tr.hist.accepted|
    ensures 0 <= OwnerOf(s, t) < |s.life.ums.requests|
    ensures s.life.ums.requests[OwnerOf(s, t)].id == s.tr.hist.accepted[t].msg.id
  {
  }

  lemma HandedMessage(s: State, k: T.Task)
    requires Inv(s) && k in s.tr.hist.handed
    ensures k.ticket < |s.tr.hist.accepted| && s.tr.hist.accepted[k.ticket].msg == k.msg
    ensures R.WasHanded(s.tr, k.ticket)
  {
    assert O.Fits(s.tr.hist.accepted, k);
  }

  /** Without any condition on ids: a resolved request, or another request with the same id, had its message handed
      to the socket. */
  lemma ResolvedOrNamesake(timeout: nat, es: seq<Event>, r: nat) returns (q: nat)
    requires IsResolved(Run(Init(timeout), es), r)
    ensures var s := Run(Init(timeout), es);
            q < |s.life.ums.requests| && s.life.ums.requests[q].id == s.life.ums.requests[r].id && OwnHanded(s, q)
  {
    var s := Run(Init(timeout), es);
    InitInv(timeout);
    RunInv(Init(timeout), es);
    assert Answered(s, r) && WasHanded(s.tr, s.life.ums.requests[r].id);
    var k :| k in s.tr.hist.handed && k.msg.id == s.life.ums.requests[r].id;
    HandedMessage(s, k);
    OwnerHasId(s, k.ticket);
    q := OwnerOf(s, k.ticket);
  }
}
