/** When an id may be used again: exactly when no earlier message with it can reach the socket any more. */
module EndToEndReuse {
  import opened Wrappers
  import E = EventEmitter
  import T = TransportModel
  import B = TransportBalance
  import O = TransportOutcome
  import R = TransportReach
  import U = UmsModel
  import P = UmsProofs
  import L = LifecycleModel
  import LP = LifecycleProofs
  import opened EndToEnd

  // ---------- safe ids ----------

  /** Every accepted message with this id is dead: dropped, or waiting in a stuck queue. None was handed to the
      socket. */
  ghost predicate Spent(s: State, id: string) {
    forall t: nat :: t < |s.tr.hist.accepted| && s.tr.hist.accepted[t].msg.id == id ==> R.Dead(s.tr, t)
  }

  /** Of the messages with the id of request `r` only its own can reach the socket. */
  ghost predicate Exclusive(s: State, r: nat)
    requires r < |s.life.ums.requests|
  {
    forall t: nat :: t < |s.tr.hist.accepted| && s.tr.hist.accepted[t].msg.id == s.life.ums.requests[r].id
                     ==> OwnerOf(s, t) == r || R.Dead(s.tr, t)
  }

  /** What keeps request `r` from being resolved by the answer to another message. */
  ghost predicate Safe(s: State, r: nat) {
    && r < |s.life.ums.requests|
    && (IsResolved(s, r) ==> OwnHanded(s, r))
    && (U.Registered(s.life.ums, r) ==> Exclusive(s, r))
  }

  /** The client goes on to `life`: no id changes, nothing is registered or resolved anew, except by an answer to
      `r`. */
  ghost predicate OnlyLoses(ums: U.State, ums': U.State, r: nat) {
    && r < |ums.requests| && r < |ums'.requests| && ums'.requests[r].id == ums.requests[r].id
    && (U.Registered(ums', r) ==> U.Registered(ums, r))
    && (ums'.requests[r].status.Resolved? ==> ums.requests[r].status.Resolved?)
  }

  // ---------- the client's part ----------

  lemma ClientOnlyLoses(ums: U.State, ce: U.Event, r: nat)
    requires P.Inv(ums) && r < |ums.requests| && !(ce.Receive? && U.IsResponse(ce.msg))
    ensures OnlyLoses(ums, U.Step(ums, ce), r)
  {
    P.StepKeeps(ums, ce);
    var ums' := U.Step(ums, ce);
    if U.Registered(ums', r) { P.StepUnlists(ums, ce, r); }
    if ums'.requests[r].status.Resolved? && !ums.requests[r].status.Resolved? { ResolvedBy(ums, ce, r); }
  }

  lemma LifeOnlyLoses(life: L.State, le: L.Event, r: nat)
    requires P.Inv(life.ums) && r < |life.ums.requests| && !(le.Client? && le.ce.Receive? && U.IsResponse(le.ce.msg))
    ensures OnlyLoses(life.ums, L.Step(life, le).ums, r)
  {
    LP.StepProjects(life, le);
    var ces := LP.Projected(life, le);
    if ces != [] {
      assert ces[1..] == [];
      assert U.Run(life.ums, ces) == U.Run(U.Step(life.ums, ces[0]), []);
      ClientOnlyLoses(life.ums, ces[0], r);
    }
  }

  lemma {:induction false} FailAllOnlyLoses(life: L.State, ran: seq<T.Ran>, sent: seq<Sent>, r: nat)
    requires LP.Inv(life) && r < |life.ums.requests|
    ensures OnlyLoses(life.ums, FailAll(life, ran, sent).ums, r)
    decreases |ran|
  {
    if ran != [] {
      var one := ran[0];
      if !one.ok && one.batch < |sent| {
        var le := L.Client(U.SendFails(sent[one.batch].req));
        LifeOnlyLoses(life, le, r);
        LP.StepInv(life, le);
      }
      FailAllOnlyLoses(FailOne(life, one, sent), ran[1..], sent, r);
    }
  }

  // ---------- safety is kept ----------

  ghost predicate MoreDead(tr: T.State, tr': T.State) {
    forall t: nat :: R.Dead(tr, t) ==> R.Dead(tr', t)
  }

  lemma DeadKept(tr: T.State, te: T.Event)
    ensures MoreDead(tr, T.Step(tr, te))
  {
    forall t: nat | R.Dead(tr, t) ensures R.Dead(T.Step(tr, te), t) { R.DeadStep(tr, te, t); }
  }

  /** New messages have other ids, dead ones stay dead, and the records only grow. */
  ghost predicate Continues(s: State, s': State, r: nat)
    requires r < |s.life.ums.requests|
  {
    && s.sent <= s'.sent && s.tr.hist.accepted <= s'.tr.hist.accepted && s.tr.hist.handed <= s'.tr.hist.handed
    && MoreDead(s.tr, s'.tr)
    && (U.Registered(s.life.ums, r) ==>
          forall t: nat :: |s.tr.hist.accepted| <= t < |s'.tr.hist.accepted| ==>
            s'.tr.hist.accepted[t].msg.id != s.life.ums.requests[r].id)
  }

  lemma SameOwner(s: State, s': State, t: nat)
    requires SentOk(s) && s.sent <= s'.sent && s.tr.hist.accepted <= s'.tr.hist.accepted && t < |s.tr.hist.accepted|
    ensures OwnerOf(s', t) == OwnerOf(s, t)
  {
  }

  lemma OwnStaysHanded(s: State, s': State, r: nat)
    requires Inv(s) && OwnHanded(s, r) && s.sent <= s'.sent
    requires s.tr.hist.accepted <= s'.tr.hist.accepted && s.tr.hist.handed <= s'.tr.hist.handed
    ensures OwnHanded(s', r)
  {
    var k :| k in s.tr.hist.handed && OwnerOf(s, k.ticket) == r;
    HandedMessage(s, k);
    SameOwner(s, s', k.ticket);
    assert k in s'.tr.hist.handed;
  }

  lemma SafeKept(s: State, s': State, r: nat)
    requires Inv(s) && Safe(s, r) && OnlyLoses(s.life.ums, s'.life.ums, r) && Continues(s, s', r)
    ensures Safe(s', r)
  {
    if IsResolved(s', r) { OwnStaysHanded(s, s', r); }
    if U.Registered(s'.life.ums, r) {
      forall t: nat | t < |s'.tr.hist.accepted| && s'.tr.hist.accepted[t].msg.id == s'.life.ums.requests[r].id
        ensures OwnerOf(s', t) == r || R.Dead(s'.tr, t)
      {
        assert t < |s.tr.hist.accepted|;
        SameOwner(s, s', t);
        assert OwnerOf(s, t) == r || R.Dead(s.tr, t);
      }
    }
  }

  /** A registered request that alone can have had its message handed over had it handed over, if some message with
      its id was received. */
  lemma ReceivedIsOwn(s: State, r: nat)
    requires Inv(s) && r < |s.life.ums.requests| && Exclusive(s, r) && s.life.ums.requests[r].id in s.received
    ensures OwnHanded(s, r)
  {
    var id := s.life.ums.requests[r].id;
    assert WasHanded(s.tr, id);
    var k :| k in s.tr.hist.handed && k.msg.id == id;
    HandedMessage(s, k);
    if R.Dead(s.tr, k.ticket) { R.DeadNotHanded(s.tr, k.ticket); }
  }

  lemma AnswerResolves(s: State, msg: U.Incoming, r: nat)
    requires Inv(s) && U.IsResponse(msg) && r < |s.life.ums.requests|
    ensures var ums' := Step(s, ServerAnswers(msg)).life.ums;
            && r < |ums'.requests| && ums'.requests[r].id == s.life.ums.requests[r].id
            && (U.Registered(ums', r) ==> U.Registered(s.life.ums, r))
            && (ums'.requests[r].status.Resolved? && !IsResolved(s, r) ==>
                  U.Registered(s.life.ums, r) && s.life.ums.requests[r].id in s.received)
  {
    var ums, ce := s.life.ums, U.Receive(msg);
    P.StepKeeps(ums, ce);
    if msg.reqId.value in s.received {
      assert Step(s, ServerAnswers(msg)).life.ums == U.Step(ums, ce);
      if U.Registered(U.Step(ums, ce), r) { P.StepUnlists(ums, ce, r); }
      if U.Step(ums, ce).requests[r].status.Resolved? && !IsResolved(s, r) { ResolvedBy(ums, ce, r); }
    }
  }

  /** The answer under an id resolves the registered request only if that request's own message was received. */
  lemma AnswerIsSafe(s: State, msg: U.Incoming, r: nat)
    requires Inv(s) && Safe(s, r) && U.IsResponse(msg)
    ensures Safe(Step(s, ServerAnswers(msg)), r)
  {
    AnswerResolves(s, msg, r);
    if U.Registered(s.life.ums, r) && s.life.ums.requests[r].id in s.received { ReceivedIsOwn(s, r); }
    var s' := Step(s, ServerAnswers(msg));
    assert s'.tr == s.tr && s'.sent == s.sent;
  }

  lemma RequestIsSafe(s: State, id: string, body: string, r: nat)
    requires Inv(s) && Safe(s, r)
    ensures Safe(DoRequest(s, id, body), r)
  {
    var s', msg := DoRequest(s, id, body), T.Message(id, body);
    LifeOnlyLoses(s.life, L.Client(U.Send(id, ReachesTransport(s, id) && T.HasQueue(s.tr))), r);
    SendAccepts(s.tr, msg);
    DeadKept(s.tr, T.Send([msg]));
    if U.Registered(s.life.ums, r) && s.life.ums.requests[r].id == id {
      assert !ReachesTransport(s, id);
    }
    SafeKept(s, s', r);
  }

  lemma TransportIsSafe(s: State, te: T.Event, r: nat)
    requires Inv(s) && Safe(s, r) && !te.Send?
    ensures Safe(DoTransport(s, te), r)
  {
    var tr' := T.Step(s.tr, te);
    O.StepExtends(s.tr, te);
    DeadKept(s.tr, te);
    FailAllOnlyLoses(s.life, tr'.hist.ran[|s.tr.hist.ran|..], s.sent, r);
    SafeKept(s, DoTransport(s, te), r);
  }

  lemma StepIsSafe(s: State, e: Event, r: nat)
    requires Inv(s) && Safe(s, r)
    ensures Safe(Step(s, e), r)
  {
    match e
    case Request(id, body) => RequestIsSafe(s, id, body, r);
    case Transport(te) => if !te.Send? { TransportIsSafe(s, te, r); }
    case Life(le) =>
      if Independent(le) {
        LifeOnlyLoses(s.life, le, r);
        SafeKept(s, Step(s, e), r);
      }
    case ServerReceives(_) => SafeKept(s, Step(s, e), r);
    case ServerAnswers(msg) =>
      if U.IsResponse(msg) { AnswerIsSafe(s, msg, r); }
  }

  lemma {:induction false} RunIsSafe(s: State, es: seq<Event>, r: nat)
    requires Inv(s) && Safe(s, r)
    ensures Safe(Run(s, es), r)
    decreases |es|
  {
    if es != [] {
      StepIsSafe(s, es[0], r);
      StepInv(s, es[0]);
      RunIsSafe(Step(s, es[0]), es[1..], r);
    }
  }

  /** A request that uses a spent id is safe from the start. */
  lemma SpentStartsSafe(s: State, id: string, body: string)
    requires Inv(s) && Spent(s, id)
    ensures Safe(DoRequest(s, id, body), |s.life.ums.requests|)
  {
    var s', r, msg := DoRequest(s, id, body), |s.life.ums.requests|, T.Message(id, body);
    RequestLife(s, id, body);
    SendAccepts(s.tr, msg);
    DeadKept(s.tr, T.Send([msg]));
    forall t: nat | t < |s'.tr.hist.accepted| && s'.tr.hist.accepted[t].msg.id == id
      ensures OwnerOf(s', t) == r || R.Dead(s'.tr, t)
    {
      if t < |s.tr.hist.accepted| { assert R.Dead(s.tr, t); }
    }
  }

  // ---------- the first half ----------

  /** The own message of request `r` was handed to the socket exactly once. */
  ghost predicate OwnHandedOnce(s: State, r: nat) {
    exists t: nat :: && t < |s.tr.hist.accepted| && OwnerOf(s, t) == r && B.Count(s.tr.hist.handed, B.ByTicket(t)) == 1
                     && r < |s.life.ums.requests| && s.tr.hist.accepted[t].msg.id == s.life.ums.requests[r].id
  }

  lemma HandedIsOnce(s: State, r: nat)
    requires Inv(s) && OwnHanded(s, r)
    ensures OwnHandedOnce(s, r)
  {
    var k :| k in s.tr.hist.handed && OwnerOf(s, k.ticket) == r;
    HandedMessage(s, k);
    OwnerHasId(s, k.ticket);
    HandedOnce(s.tr, k.ticket, k);
  }

  lemma HandedOnce(tr: T.State, t: nat, k: T.Task)
    requires B.Balanced(tr, [], []) && k in tr.hist.handed && k.ticket == t
    ensures B.Count(tr.hist.handed, B.ByTicket(t)) == 1
  {
    var i :| 0 <= i < |tr.hist.handed| && tr.hist.handed[i] == k;
    B.CountAtLeast(tr.hist.handed, i, B.ByTicket(t));
    assert B.Placed(tr, t) + B.Count([], B.ByTicket(t)) == B.Expected(tr, t);
    assert B.Count(tr.hist.handed, B.ByTicket(t)) == B.Outcomes(tr, t);
    B.WireIsHeld(tr.queues, t);
  }

  /** If the id is spent when the request is made, then in every later state, whatever other requests use the id
      in the meantime, a resolved request had its own message handed to the socket exactly once. */
  lemma SpentIsSafe(timeout: nat, before: seq<Event>, id: string, body: string, es: seq<Event>)
    requires Spent(Run(Init(timeout), before), id)
    ensures var s := Run(Init(timeout), before);
            var s', r := Run(Step(s, Request(id, body)), es), |s.life.ums.requests|;
            IsResolved(s', r) ==> OwnHandedOnce(s', r)
  {
    var s := Run(Init(timeout), before);
    var s1, r := Step(s, Request(id, body)), |s.life.ums.requests|;
    InitInv(timeout);
    RunInv(Init(timeout), before);
    SpentStartsSafe(s, id, body);
    StepInv(s, Request(id, body));
    RunIsSafe(s1, es, r);
    RunInv(s1, es);
    if IsResolved(Run(s1, es), r) { HandedIsOnce(Run(s1, es), r); }
  }

  // ---------- whole runs ----------

  /** Every request that reaches the transport does so with a spent id. */
  ghost predicate SpentIds(s: State, es: seq<Event>)
    decreases |es|
  {
    es == []
    || ((es[0].Request? && ReachesTransport(s, es[0].id) ==> Spent(s, es[0].id)) && SpentIds(Step(s, es[0]), es[1..]))
  }

  /** No request uses an id that was used before. */
  ghost predicate FreshIds(s: State, es: seq<Event>)
    decreases |es|
  {
    es == []
    || ((es[0].Request? ==>
           forall r :: 0 <= r < |s.life.ums.requests| ==> s.life.ums.requests[r].id != es[0].id)
        && FreshIds(Step(s, es[0]), es[1..]))
  }

  lemma FreshIsSpent(s: State, id: string)
    requires Inv(s) && forall r :: 0 <= r < |s.life.ums.requests| ==> s.life.ums.requests[r].id != id
    ensures Spent(s, id)
  {
    forall t: nat | t < |s.tr.hist.accepted| ensures s.tr.hist.accepted[t].msg.id != id { OwnerHasId(s, t); }
  }

  lemma {:induction false} FreshAreSpent(s: State, es: seq<Event>)
    requires Inv(s) && FreshIds(s, es)
    ensures SpentIds(s, es)
    decreases |es|
  {
    if es != [] {
      if es[0].Request? { FreshIsSpent(s, es[0].id); }
      StepInv(s, es[0]);
      FreshAreSpent(Step(s, es[0]), es[1..]);
    }
  }

  ghost predicate AllSafe(s: State) {
    forall r: nat :: r < |s.life.ums.requests| ==> Safe(s, r)
  }

  /** A request that does not reach the transport is rejected at once. */
  lemma RejectedIsSafe(s: State, id: string, body: string)
    requires Inv(s) && !ReachesTransport(s, id)
    ensures Safe(DoRequest(s, id, body), |s.life.ums.requests|)
  {
    var s', r := DoRequest(s, id, body), |s.life.ums.requests|;
    RequestLife(s, id, body);
    P.SendOutcome(s.life.ums, id, false);
    assert s'.life.ums == U.Step(s.life.ums, U.Send(id, false));
    P.RegisteredIsOwner(s'.life.ums, r);
    assert id in s'.life.ums.responses ==> P.Owns(s'.life.ums, id);
  }

  // ---------- only requests make requests ----------

  lemma LifeCount(life: L.State, le: L.Event)
    requires !(le.Client? && le.ce.Send?)
    ensures |L.Step(life, le).ums.requests| == |life.ums.requests|
  {
    if !le.Client? {
      LifeKeepsRequests(life, le);
    } else if le.ce.Receive? {
      P.OthersKeepCount(life.ums, le.ce);
    }
  }

  lemma {:induction false} FailAllCount(life: L.State, ran: seq<T.Ran>, sent: seq<Sent>)
    ensures |FailAll(life, ran, sent).ums.requests| == |life.ums.requests|
    decreases |ran|
  {
    if ran != [] {
      if !ran[0].ok && ran[0].batch < |sent| { LifeCount(life, L.Client(U.SendFails(sent[ran[0].batch].req))); }
      FailAllCount(FailOne(life, ran[0], sent), ran[1..], sent);
    }
  }

  lemma OthersCount(s: State, e: Event)
    requires !e.Request?
    ensures |Step(s, e).life.ums.requests| == |s.life.ums.requests|
  {
    match e
    case Transport(te) =>
      if !te.Send? {
        O.StepExtends(s.tr, te);
        FailAllCount(s.life, T.Step(s.tr, te).hist.ran[|s.tr.hist.ran|..], s.sent);
      }
    case Life(le) => if Independent(le) { LifeCount(s.life, le); }
    case ServerReceives(_) =>
    case ServerAnswers(msg) => LifeCount(s.life, L.Client(U.Receive(msg)));
  }

  lemma StepAllSafe(s: State, e: Event)
    requires Inv(s) && AllSafe(s) && (e.Request? && ReachesTransport(s, e.id) ==> Spent(s, e.id))
    ensures AllSafe(Step(s, e))
  {
    var n := |s.life.ums.requests|;
    forall r: nat | r < |Step(s, e).life.ums.requests| ensures Safe(Step(s, e), r) {
      if r < n {
        StepIsSafe(s, e, r);
      } else if e.Request? {
        RequestLife(s, e.id, e.body);
        if ReachesTransport(s, e.id) { SpentStartsSafe(s, e.id, e.body); } else { RejectedIsSafe(s, e.id, e.body); }
      } else {
        OthersCount(s, e);
      }
    }
  }

  lemma {:induction false} RunAllSafe(s: State, es: seq<Event>)
    requires Inv(s) && AllSafe(s) && SpentIds(s, es)
    ensures AllSafe(Run(s, es))
    decreases |es|
  {
    if es != [] {
      StepAllSafe(s, es[0]);
      StepInv(s, es[0]);
      RunAllSafe(Step(s, es[0]), es[1..]);
    }
  }

  // ---------- whole runs: the results ----------

  /** If every request that reaches the transport uses a spent id, then every request that resolves had its own message
      handed to the socket exactly once. */
  lemma SpentIdsResolveOwn(timeout: nat, es: seq<Event>, r: nat)
    requires SpentIds(Init(timeout), es) && IsResolved(Run(Init(timeout), es), r)
    ensures OwnHandedOnce(Run(Init(timeout), es), r)
  {
    InitInv(timeout);
    RunInv(Init(timeout), es);
    RunAllSafe(Init(timeout), es);
    assert Safe(Run(Init(timeout), es), r);
    HandedIsOnce(Run(Init(timeout), es), r);
  }

  lemma OwnTicket(s: State, r: nat) returns (batch: nat, t: nat)
    requires Inv(s) && OwnHandedOnce(s, r)
    ensures batch < |s.sent| && s.sent[batch].req == r && s.sent[batch].msg.id == s.life.ums.requests[r].id
    ensures t < |s.tr.hist.accepted| && s.tr.hist.accepted[t] == T.Accepted(s.sent[batch].msg, batch)
    ensures B.Count(s.tr.hist.handed, B.ByTicket(t)) == 1
    ensures exists k :: k in s.tr.hist.handed && k.ticket == t && k.msg == s.sent[batch].msg
  {
    t :| t < |s.tr.hist.accepted| && OwnerOf(s, t) == r && B.Count(s.tr.hist.handed, B.ByTicket(t)) == 1
         && r < |s.life.ums.requests| && s.tr.hist.accepted[t].msg.id == s.life.ums.requests[r].id;
    batch := s.tr.hist.accepted[t].batch;
    var i := B.CountWitness(s.tr.hist.handed, B.ByTicket(t));
    HandedMessage(s, s.tr.hist.handed[i]);
  }

  /** If no id is used twice and the server answers only what it received, then every request that resolves was
      handed to the socket, exactly once and unchanged, and its response carries its own id. */
  lemma ResolvedWasSent(timeout: nat, es: seq<Event>, r: nat) returns (batch: nat, t: nat)
    requires FreshIds(Init(timeout), es) && IsResolved(Run(Init(timeout), es), r)
    ensures var s := Run(Init(timeout), es);
            && batch < |s.sent| && s.sent[batch].req == r && s.sent[batch].msg.id == s.life.ums.requests[r].id
            && t < |s.tr.hist.accepted| && s.tr.hist.accepted[t] == T.Accepted(s.sent[batch].msg, batch)
            && B.Count(s.tr.hist.handed, B.ByTicket(t)) == 1
            && (exists k :: k in s.tr.hist.handed && k.ticket == t && k.msg == s.sent[batch].msg)
            && s.life.ums.requests[r].status.res.Message?
            && s.life.ums.requests[r].status.res.reqId == Some(s.life.ums.requests[r].id)
  {
    var s := Run(Init(timeout), es);
    InitInv(timeout);
    RunInv(Init(timeout), es);
    FreshAreSpent(Init(timeout), es);
    SpentIdsResolveOwn(timeout, es, r);
    assert Answered(s, r);
    batch, t := OwnTicket(s, r);
  }
}
