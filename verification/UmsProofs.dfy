/** What holds of the request table, the promises and the timers after every run of the client. */
module UmsProofs {
  import opened Wrappers
  import opened EventEmitter
  import opened UmsModel

  // ---------- the invariant ----------

  /** Each id has at most one listener, and it belongs to an unsettled request with that id. */
  ghost predicate Owns(s: State, id: string) {
    && id in s.responses && |s.responses[id]| == 1
    && var l := s.responses[id][0];
       l.once && IsUnsettled(s, l.fn) && s.requests[l.fn].id == id
  }

  ghost predicate TableOk(s: State) {
    forall id :: id in s.responses ==> Owns(s, id)
  }

  /** Every unsettled request (but possibly the one in hand) has a live timer that is due within the timeout. */
  ghost predicate TimersOkBut(s: State, r: int) {
    && (forall k :: 0 <= k < |s.requests| && k != r && s.requests[k].status == Unsettled ==> s.requests[k].timer)
    && (forall k :: 0 <= k < |s.requests| && s.requests[k].timer ==> s.now <= s.requests[k].due <= s.now + s.timeout)
  }

  /** Unsettled without a listener. */
  predicate Orphan(s: State, r: nat) {
    IsUnsettled(s, r) && !Registered(s, r)
  }

  /** Some request with this id lost its listener to a stop. */
  ghost predicate Tainted(s: State, id: string) {
    exists q :: q in s.stopOrphans && q < |s.requests| && s.requests[q].id == id
  }

  ghost predicate OrphansTainted(s: State) {
    && (forall q :: q in s.stopOrphans ==> q < |s.requests|)
    && (forall r :: 0 <= r < |s.requests| && Orphan(s, r) ==> Tainted(s, s.requests[r].id))
  }

  ghost predicate NotificationsOk(s: State) {
    forall kind :: kind in s.notifications ==>
      s.notifications[kind] != [] && forall l :: l in s.notifications[kind] ==> !l.once
  }

  ghost predicate InvBut(s: State, r: int) {
    TableOk(s) && TimersOkBut(s, r) && OrphansTainted(s) && NotificationsOk(s)
  }

  ghost predicate Inv(s: State) {
    InvBut(s, -1)
  }

  // ---------- preservation ----------

  lemma RegisteredIsOwner(s: State, r: nat)
    requires TableOk(s) && r < |s.requests|
    ensures Registered(s, r)
            <==> s.requests[r].id in s.responses && s.responses[s.requests[r].id] == [Listener(r, true)]
  {
    var id := s.requests[r].id;
    if id in s.responses { assert Owns(s, id); }
  }

  lemma StillTainted(s: State, s': State, id: string)
    requires Tainted(s, id) && s.stopOrphans <= s'.stopOrphans && |s.requests| <= |s'.requests|
    requires forall k :: 0 <= k < |s.requests| ==> s'.requests[k].id == s.requests[k].id
    ensures Tainted(s', id)
  {
    var q :| q in s.stopOrphans && q < |s.requests| && s.requests[q].id == id;
    assert q in s'.stopOrphans && s'.requests[q].id == id;
  }

  lemma RejectInv(s: State, r: nat, why: Reason)
    requires InvBut(s, r) && r < |s.requests|
    ensures Inv(Reject(s, r, why))
  {
    var s' := Reject(s, r, why);
    if IsUnsettled(s, r) {
      var id := s.requests[r].id;
      forall x | x in s'.responses ensures Owns(s', x) { assert Owns(s, x); }
      forall k | 0 <= k < |s'.requests| && Orphan(s', k) ensures Tainted(s', s'.requests[k].id) {
        RegisteredIsOwner(s, k);
        RegisteredIsOwner(s, r);
        if Orphan(s, k) {
          StillTainted(s, s', s.requests[k].id);
        } else {
          assert s.requests[k].id == id && Orphan(s, r);
          StillTainted(s, s', id);
        }
      }
    }
  }

  lemma Unlisted(s: State, id: string)
    requires TableOk(s) && ListenersOf(s.responses, id) == []
    ensures id !in s.responses
  {
  }

  lemma DuplicateInv(s: State, id: string)
    requires Inv(s)
    ensures Inv(s.(requests := s.requests + [Request(id, Rejected(InProgress), s.now, false)]))
  {
    var s' := s.(requests := s.requests + [Request(id, Rejected(InProgress), s.now, false)]);
    forall x | x in s'.responses ensures Owns(s', x) { assert Owns(s, x); }
    forall k | 0 <= k < |s'.requests| && Orphan(s', k) ensures Tainted(s', s'.requests[k].id) {
      assert k < |s.requests| && Orphan(s, k);
      StillTainted(s, s', s.requests[k].id);
    }
  }

  lemma SendInv(s: State, id: string, accepted: bool)
    requires Inv(s)
    ensures Inv(SendMessage(s, id, accepted))
  {
    if ListenersOf(s.responses, id) != [] {
      DuplicateInv(s, id);
    } else {
      RegisterInv(s, id);
      Exempt(Register(s, id), |s.requests|);
      RejectInv(Register(s, id), |s.requests|, if !s.started then NotStarted else SendFailed);
    }
  }

  lemma Exempt(s: State, r: nat)
    requires Inv(s)
    ensures InvBut(s, r)
  {
  }

  lemma RegisterInv(s: State, id: string)
    requires Inv(s) && ListenersOf(s.responses, id) == []
    ensures Inv(Register(s, id)) && Registered(Register(s, id), |s.requests|)
  {
    var r, s1 := |s.requests|, Register(s, id);
    Unlisted(s, id);
    assert [] + [Listener(r, true)] == [Listener(r, true)];
    assert s1.responses == s.responses[id := [Listener(r, true)]];
    forall x | x in s1.responses ensures Owns(s1, x) {
      if x != id { assert Owns(s, x); }
    }
    assert Registered(s1, r);
    forall k | 0 <= k < |s1.requests| && Orphan(s1, k) ensures Tainted(s1, s1.requests[k].id) {
      assert k < r && Orphan(s, k);
      StillTainted(s, s1, s.requests[k].id);
    }
  }

  /** What emitting a response does when the table is in order. */
  lemma EmitResponseIs(s: State, id: string, msg: Incoming)
    requires TableOk(s)
    ensures id in s.responses ==>
              EmitResponse(s, id, msg)
              == Settle(s, s.responses[id][0].fn, Resolved(msg)).(responses := s.responses - {id})
    ensures id !in s.responses && id != ERROR_EVENT ==> EmitResponse(s, id, msg) == s
    ensures id !in s.responses && id == ERROR_EVENT ==> EmitResponse(s, id, msg) == s.(thrown := s.thrown + 1)
  {
    if id in s.responses {
      assert Owns(s, id);
      var l := s.responses[id][0];
      assert s.responses[id] == [l];
      assert Functions([l]) == [l.fn] && [l.fn][1..] == [];
      assert Persisting([l]) == [] by { assert [l][..0] == []; }
      var s1 := s.(responses := s.responses - {id});
      assert SettleAll(s1, [l.fn], Resolved(msg)) == Settle(s1, l.fn, Resolved(msg));
    } else {
      assert Persisting([]) == [];
      assert s.responses - {id} == s.responses;
    }
  }

  lemma EmitResponseInv(s: State, id: string, msg: Incoming)
    requires Inv(s)
    ensures Inv(EmitResponse(s, id, msg))
  {
    EmitResponseIs(s, id, msg);
    var s' := EmitResponse(s, id, msg);
    if id in s.responses {
      assert Owns(s, id);
      forall x | x in s'.responses ensures Owns(s', x) { assert Owns(s, x); }
      forall k | 0 <= k < |s'.requests| && Orphan(s', k) ensures Tainted(s', s'.requests[k].id) {
        RegisteredIsOwner(s, k);
        assert Orphan(s, k);
        StillTainted(s, s', s.requests[k].id);
      }
    } else {
      SameRequestsInv(s, s');
    }
  }

  lemma {:induction false} NoOncePersists(ls: seq<Listener>)
    requires forall l :: l in ls ==> !l.once
    ensures Persisting(ls) == ls
  {
    if ls != [] {
      NoOncePersists(ls[..|ls| - 1]);
      assert ls == ls[..|ls| - 1] + [ls[|ls| - 1]];
    }
  }

  /** A notification calls its listeners once per emit and leaves the table as it is. */
  lemma EmitNotificationIs(s: State, kind: string, msg: Incoming)
    requires NotificationsOk(s)
    ensures var ls := ListenersOf(s.notifications, kind);
            EmitNotification(s, kind, msg)
            == if ls == [] && kind == ERROR_EVENT then s.(thrown := s.thrown + 1)
               else s.(delivered := s.delivered + Deliveries(Functions(ls), msg))
  {
    NoOncePersists(ListenersOf(s.notifications, kind));
    SetTwice(s.notifications, kind, [], []);
    assert AfterEmit(s.notifications, kind) == s.notifications;
  }

  lemma SameRequestsInv(s: State, s': State)
    requires Inv(s) && NotificationsOk(s')
    requires s'.requests == s.requests && s'.responses == s.responses && s'.now == s.now
    requires s'.timeout == s.timeout && s'.stopOrphans == s.stopOrphans
    ensures Inv(s')
  {
    forall x | x in s'.responses ensures Owns(s', x) { assert Owns(s, x); }
    forall k | 0 <= k < |s'.requests| && Orphan(s', k) ensures Tainted(s', s'.requests[k].id) {
      assert Orphan(s, k);
      StillTainted(s, s', s.requests[k].id);
    }
  }

  lemma HandleOneInv(s: State, msg: Incoming)
    requires Inv(s)
    ensures Inv(HandleOne(s, msg))
  {
    if IsResponse(msg) {
      EmitResponseInv(s, msg.reqId.value, msg);
    } else if IsNotification(msg) {
      EmitNotificationIs(s, msg.kind.value, msg);
      SameRequestsInv(s, HandleOne(s, msg));
    }
  }

  lemma {:induction false} HandleByInv(s: State, msg: Incoming, k: nat)
    requires Inv(s)
    ensures Inv(HandleBy(s, msg, k))
    decreases k
  {
    if k > 0 {
      HandleOneInv(s, msg);
      HandleByInv(HandleOne(s, msg), msg, k - 1);
    }
  }

  lemma CleanUpInv(s: State)
    requires Inv(s)
    ensures Inv(CleanUp(s))
  {
    var s' := CleanUp(s);
    forall k | 0 <= k < |s'.requests| && Orphan(s', k) ensures Tainted(s', s'.requests[k].id) {
      if Registered(s, k) {
        assert k in s'.stopOrphans;
      } else {
        StillTainted(s, s', s.requests[k].id);
      }
    }
  }

  lemma AdvanceInv(s: State, dt: nat)
    requires Inv(s) && MayAdvance(s, dt)
    ensures Inv(s.(now := s.now + dt))
  {
    var s' := s.(now := s.now + dt);
    forall x | x in s'.responses ensures Owns(s', x) { assert Owns(s, x); }
    forall k | 0 <= k < |s'.requests| && Orphan(s', k) ensures Tainted(s', s'.requests[k].id) {
      assert Orphan(s, k);
      StillTainted(s, s', s.requests[k].id);
    }
  }

  lemma TimerInv(s: State, r: nat)
    requires Inv(s) && Enabled(s, Timer(r))
    ensures Inv(Step(s, Timer(r)))
  {
    var s1 := StopTimer(s, r);
    forall x | x in s1.responses ensures Owns(s1, x) { assert Owns(s, x); }
    forall k | 0 <= k < |s1.requests| && Orphan(s1, k) ensures Tainted(s1, s1.requests[k].id) {
      assert Orphan(s, k);
      StillTainted(s, s1, s.requests[k].id);
    }
    RejectInv(s1, r, TimedOut);
  }

  lemma StepInv(s: State, e: Event)
    requires Inv(s)
    ensures Inv(Step(s, e))
  {
    if Enabled(s, e) {
      match e
      case Send(id, accepted) => SendInv(s, id, accepted);
      case SendFails(r) => RejectInv(s, r, SendFailed);
      case Timer(r) => TimerInv(s, r);
      case Advance(dt) => AdvanceInv(s, dt);
      case Receive(msg) => HandleByInv(s, msg, s.subs);
      case OnNotification(kind, fn) => SameRequestsInv(s, Do(s, e));
      case Started => SameRequestsInv(s, Do(s, e));
      case Subscribe => SameRequestsInv(s, Do(s, e));
      case Stopped => SameRequestsInv(s, Do(s, e));
      case Cleanup => CleanUpInv(s);
    }
  }

  lemma {:induction false} RunInv(s: State, es: seq<Event>)
    requires Inv(s)
    ensures Inv(Run(s, es))
    decreases |es|
  {
    if es != [] {
      StepInv(s, es[0]);
      RunInv(Step(s, es[0]), es[1..]);
    }
  }

  // ---------- the session: table and unsettled requests ----------

  function UnsettledSet(s: State): set<nat> {
    set r | 0 <= r < |s.requests| && IsUnsettled(s, r)
  }

  ghost predicate NoOrphans(s: State) {
    forall r :: 0 <= r < |s.requests| ==> !Orphan(s, r)
  }

  /** The listener table is the map from id to the one unsettled request with that id. */
  ghost predicate ExactTable(s: State) {
    && (forall id :: id in s.responses ==> Owns(s, id))
    && (forall r: nat :: IsUnsettled(s, r) ==>
          s.requests[r].id in s.responses && s.responses[s.requests[r].id] == [Listener(r, true)])
    && |s.responses.Keys| == |UnsettledSet(s)|
  }

  function Owners(t: Table, ids: set<string>): set<nat> {
    set id | id in ids && id in t && |t[id]| > 0 :: t[id][0].fn
  }

  lemma {:induction false} OwnersCount(s: State, ids: set<string>)
    requires TableOk(s) && ids <= s.responses.Keys
    ensures |Owners(s.responses, ids)| == |ids|
  {
    if ids != {} {
      var id :| id in ids;
      var rest := ids - {id};
      OwnersCount(s, rest);
      assert Owns(s, id);
      var fn := s.responses[id][0].fn;
      forall x | x in rest ensures Owns(s, x) && s.responses[x][0].fn != fn { assert Owns(s, x); }
      assert Owners(s.responses, ids) == Owners(s.responses, rest) + {fn};
    } else {
      assert Owners(s.responses, ids) == {};
    }
  }

  lemma NoOrphansExact(s: State)
    requires Inv(s) && NoOrphans(s)
    ensures ExactTable(s)
  {
    forall r: nat | IsUnsettled(s, r)
      ensures s.requests[r].id in s.responses && s.responses[s.requests[r].id] == [Listener(r, true)]
    {
      assert !Orphan(s, r);
      RegisteredIsOwner(s, r);
    }
    OwnersCount(s, s.responses.Keys);
    var owners := Owners(s.responses, s.responses.Keys);
    forall r ensures r in owners <==> r in UnsettledSet(s) {
      if r in owners {
        var id :| id in s.responses && |s.responses[id]| > 0 && s.responses[id][0].fn == r;
        assert Owns(s, id);
      }
      if r in UnsettledSet(s) { assert s.responses[s.requests[r].id][0].fn == r; }
    }
    assert owners == UnsettledSet(s);
  }

  /** Listeners are lost without settlement in two ways only. */
  lemma NewOrphan(s: State, e: Event, r: nat)
    requires Inv(s) && Orphan(Step(s, e), r) && !Orphan(s, r)
    ensures r < |s.requests| && Registered(s, r)
    ensures e.Cleanup? || ((e.Timer? || e.SendFails?) && Orphan(s, e.req) && s.requests[e.req].id == s.requests[r].id)
  {
    StepInv(s, e);
    match e
    case Send(id, accepted) => SendNoOrphan(s, id, accepted, r);
    case SendFails(q) => RejectNewOrphan(s, q, SendFailed, r);
    case Timer(q) => RejectNewOrphan(StopTimer(s, q), q, TimedOut, r);
    case Advance(dt) =>
    case Receive(msg) => ReceiveNoOrphan(s, msg, s.subs, r);
    case OnNotification(_, _) =>
    case Started =>
    case Subscribe =>
    case Stopped =>
    case Cleanup =>
  }

  lemma RejectNewOrphan(s: State, q: nat, why: Reason, r: nat)
    requires TableOk(s) && q < |s.requests| && Orphan(Reject(s, q, why), r) && !Orphan(s, r)
    ensures r < |s.requests| && Registered(s, r) && Orphan(s, q) && s.requests[q].id == s.requests[r].id
  {
    assert IsUnsettled(s, q) && r != q;
    RegisteredIsOwner(s, q);
    RegisteredIsOwner(s, r);
  }

  lemma SendNoOrphan(s: State, id: string, accepted: bool, r: nat)
    requires Inv(s) && Orphan(SendMessage(s, id, accepted), r)
    ensures Orphan(s, r)
  {
    var n := |s.requests|;
    if ListenersOf(s.responses, id) == [] {
      var s1 := Register(s, id);
      RegisterInv(s, id);
      Unlisted(s, id);
      if !Orphan(s1, r) {
        RejectNewOrphan(s1, n, if !s.started then NotStarted else SendFailed, r);
      }
      assert r < n && s1.requests[r] == s.requests[r];
    }
  }

  lemma HandleNoOrphan(s: State, msg: Incoming, r: nat)
    requires Inv(s) && Orphan(HandleOne(s, msg), r)
    ensures Orphan(s, r)
  {
    if IsResponse(msg) {
      var id := msg.reqId.value;
      EmitResponseIs(s, id, msg);
      if id in s.responses {
        assert Owns(s, id);
        RegisteredIsOwner(s, r);
      }
    } else if IsNotification(msg) {
      EmitNotificationIs(s, msg.kind.value, msg);
    }
  }

  lemma {:induction false} ReceiveNoOrphan(s: State, msg: Incoming, k: nat, r: nat)
    requires Inv(s) && Orphan(HandleBy(s, msg, k), r)
    ensures Orphan(s, r)
    decreases k
  {
    if k > 0 {
      var s1 := HandleOne(s, msg);
      HandleOneInv(s, msg);
      if s1.thrown <= s.thrown { ReceiveNoOrphan(s1, msg, k - 1, r); }
      HandleNoOrphan(s, msg, r);
    }
  }

  ghost predicate NoCleanup(es: seq<Event>) {
    forall e :: e in es ==> !e.Cleanup?
  }

  /** Main result: from a reachable state without orphans on, until the next clean-up of a stop, the table is
      exact in every state, so `pendingMessages` is the number of unsettled requests. */
  lemma SessionRefinement(timeout: nat, before: seq<Event>, es: seq<Event>)
    requires NoOrphans(Run(Init(timeout), before)) && NoCleanup(es)
    ensures ExactTable(Run(Run(Init(timeout), before), es))
  {
    RunInv(Init(timeout), before);
    NoOrphansRun(Run(Init(timeout), before), es);
    RunInv(Run(Init(timeout), before), es);
    NoOrphansExact(Run(Run(Init(timeout), before), es));
  }

  lemma {:induction false} NoOrphansRun(s: State, es: seq<Event>)
    requires Inv(s) && NoOrphans(s) && NoCleanup(es)
    ensures NoOrphans(Run(s, es))
    decreases |es|
  {
    if es != [] {
      var s' := Step(s, es[0]);
      forall r | 0 <= r < |s'.requests| ensures !Orphan(s', r) {
        if Orphan(s', r) {
          assert r < |s.requests| ==> !Orphan(s, r);
          NewOrphan(s, es[0], r);
        }
      }
      StepInv(s, es[0]);
      NoOrphansRun(s', es[1..]);
    }
  }

  /** A request waits for its response exactly if no other with its id is listening, the client is started and the
      transport took the message; one that fails at once leaves the listener table as it was. */
  lemma SendOutcome(s: State, id: string, accepted: bool)
    requires Inv(s)
    ensures var s', r := Step(s, Send(id, accepted)), |s.requests|;
            && |s'.requests| == r + 1 && s'.requests[..r] == s.requests && s'.requests[r].id == id
            && (s'.requests[r].status == Unsettled <==> id !in s.responses && s.started && accepted)
            && (s'.requests[r].status == Unsettled ==> Registered(s', r))
            && (s'.requests[r].status != Unsettled ==> s'.requests[r].status.Rejected? && s'.responses == s.responses)
            && (s'.requests[r].status == Rejected(InProgress) <==> id in s.responses)
  {
    if id in s.responses {
      assert Owns(s, id);
    } else {
      assert [] + [Listener(|s.requests|, true)] == [Listener(|s.requests|, true)];
      assert s.responses[id := [Listener(|s.requests|, true)]] - {id} == s.responses;
    }
  }

  // ---------- timers ----------

  /** Request `q` takes the listener of another request `r` off the table. */
  ghost predicate TakesForeign(s: State, e: Event, q: nat, r: nat) {
    q != r && (e == Timer(q) || e == SendFails(q)) && Registered(s, r) && !Registered(Step(s, e), r)
  }

  /** Main result: a timer, or a late transport failure, removes a listener that is not its own exactly if its own
      request is unsettled and without listener while a younger or older one with the same id is registered;
      and then a stop has orphaned some request with this id. */
  lemma ForeignRemoval(timeout: nat, es: seq<Event>, e: Event, q: nat, r: nat)
    requires e == Timer(q) || e == SendFails(q)
    ensures var s := Run(Init(timeout), es);
            && (TakesForeign(s, e, q, r) <==>
                  q != r && Enabled(s, e) && Orphan(s, q) && Registered(s, r) && s.requests[r].id == s.requests[q].id)
            && (TakesForeign(s, e, q, r) ==> Tainted(s, s.requests[q].id))
  {
    var s := Run(Init(timeout), es);
    RunInv(Init(timeout), es);
    if Enabled(s, e) {
      RegisteredIsOwner(s, q);
      if r < |s.requests| { RegisteredIsOwner(s, r); }
      if Registered(s, r) { assert Owns(s, s.requests[r].id); }
    }
  }

  /** The timer of a settled request changes nothing but itself. */
  lemma StaleTimerHarmless(s: State, r: nat)
    requires Enabled(s, Timer(r)) && s.requests[r].status != Unsettled
    ensures Step(s, Timer(r)) == StopTimer(s, r)
    ensures forall k :: 0 <= k < |s.requests| ==> Step(s, Timer(r)).requests[k].status == s.requests[k].status
  {
  }

  ghost predicate UntaintedIds(s: State, es: seq<Event>)
    decreases |es|
  {
    es == [] || ((es[0].Send? ==> !Tainted(s, es[0].id)) && UntaintedIds(Step(s, es[0]), es[1..]))
  }

  /** Every orphan was made by a stop itself. */
  ghost predicate StopMade(s: State) {
    forall r: nat :: Orphan(s, r) ==> r in s.stopOrphans
  }

  /** Ids of orphaned requests are not in the table. */
  ghost predicate TaintedUnlisted(s: State) {
    forall r: nat :: Orphan(s, r) ==> s.requests[r].id !in s.responses
  }

  /** Main result: if no id of a request orphaned by a stop is used again, no request ever loses its listener
      to another: it keeps it until it settles or a stop clears the table. */
  lemma NoReuseNoTheft(timeout: nat, es: seq<Event>)
    requires UntaintedIds(Init(timeout), es)
    ensures forall e: Event, q: nat, r: nat :: !TakesForeign(Run(Init(timeout), es), e, q, r)
  {
    var s := Run(Init(timeout), es);
    RunInv(Init(timeout), es);
    NoTheftRun(Init(timeout), es);
    forall e: Event, q: nat, r: nat ensures !TakesForeign(s, e, q, r) {
      NoTheft(s, e, q, r);
    }
  }

  lemma {:induction false} NoTheftRun(s: State, es: seq<Event>)
    requires Inv(s) && StopMade(s) && TaintedUnlisted(s) && UntaintedIds(s, es)
    ensures StopMade(Run(s, es)) && TaintedUnlisted(Run(s, es))
    decreases |es|
  {
    if es != [] {
      NoTheftStep(s, es[0]);
      StepInv(s, es[0]);
      NoTheftRun(Step(s, es[0]), es[1..]);
    }
  }

  lemma NoTheft(s: State, e: Event, q: nat, r: nat)
    requires Inv(s) && TaintedUnlisted(s)
    ensures !TakesForeign(s, e, q, r)
  {
    if q < |s.requests| { RegisteredIsOwner(s, q); }
    if r < |s.requests| { RegisteredIsOwner(s, r); }
  }

  lemma NoTheftStep(s: State, e: Event)
    requires Inv(s) && StopMade(s) && TaintedUnlisted(s) && (e.Send? ==> !Tainted(s, e.id))
    ensures StopMade(Step(s, e)) && TaintedUnlisted(Step(s, e))
  {
    var s' := Step(s, e);
    StepKeeps(s, e);
    forall r: nat | Orphan(s', r) ensures r in s'.stopOrphans && s'.requests[r].id !in s'.responses {
      if !Orphan(s, r) {
        NewOrphan(s, e, r);
        RegisteredIsOwner(s, r);
        if !e.Cleanup? { assert false; }
      } else {
        var id := s.requests[r].id;
        assert id !in s.responses && Tainted(s, id);
        StepListsOnlySent(s, e, id);
      }
    }
  }

  /** Some continuation lets another request take the listener of request `r`. */
  ghost predicate CanBeTaken(s: State, r: nat) {
    exists es: seq<Event>, e: Event, q: nat :: TakesForeign(Run(s, es), e, q, r)
  }

  /** While request `r` listens, every other request with its id is settled. */
  ghost predicate Sole(s: State, r: nat) {
    && r < |s.requests|
    && (Registered(s, r) ==>
          forall q :: 0 <= q < |s.requests| && q != r && s.requests[q].id == s.requests[r].id
                      ==> s.requests[q].status != Unsettled)
  }

  lemma SoleStep(s: State, e: Event, r: nat)
    requires Inv(s) && Sole(s, r)
    ensures Sole(Step(s, e), r)
  {
    var s' := Step(s, e);
    StepKeeps(s, e);
    if Registered(s', r) {
      StepUnlists(s, e, r);
      forall q | 0 <= q < |s'.requests| && q != r && s'.requests[q].id == s'.requests[r].id
        ensures s'.requests[q].status != Unsettled
      {
        if q >= |s.requests| { NewIsDuplicate(s, e, r, q); }
      }
    }
  }

  /** A new request with the id of one that listens is rejected at once. */
  lemma NewIsDuplicate(s: State, e: Event, r: nat, q: nat)
    requires Inv(s) && Registered(s, r) && |s.requests| <= q < |Step(s, e).requests|
    requires Step(s, e).requests[q].id == s.requests[r].id
    ensures Step(s, e).requests[q].status != Unsettled
  {
    RegisteredIsOwner(s, r);
    if e.Send? { SendOutcome(s, e.id, e.accepted); } else { OthersKeepCount(s, e); }
  }

  lemma {:induction false} SoleRun(s: State, es: seq<Event>, r: nat)
    requires Inv(s) && Sole(s, r)
    ensures Sole(Run(s, es), r) && Inv(Run(s, es))
    decreases |es|
  {
    if es != [] {
      SoleStep(s, es[0], r);
      StepInv(s, es[0]);
      SoleRun(Step(s, es[0]), es[1..], r);
    }
  }

  lemma SoleIsSafe(s: State, r: nat)
    requires Inv(s) && Sole(s, r)
    ensures !CanBeTaken(s, r)
  {
    forall es: seq<Event>, e: Event, q: nat ensures !TakesForeign(Run(s, es), e, q, r) {
      var s' := Run(s, es);
      SoleRun(s, es, r);
      if q < |s'.requests| { RegisteredIsOwner(s', q); }
      if r < |s'.requests| { RegisteredIsOwner(s', r); }
    }
  }

  /** Main result, on what a caller can know when it sends: for a started client and an id that no request listens for,
      the listener of the new request can be taken by another request in some continuation if and only if an earlier
      request with this id is unsettled now. */
  lemma CanBeTakenIff(timeout: nat, before: seq<Event>, id: string)
    requires var s := Run(Init(timeout), before); s.started && id !in s.responses
    ensures var s := Run(Init(timeout), before);
            CanBeTaken(Step(s, Send(id, true)), |s.requests|)
            <==> exists q :: 0 <= q < |s.requests| && s.requests[q].id == id && s.requests[q].status == Unsettled
  {
    var s, r := Run(Init(timeout), before), |Run(Init(timeout), before).requests|;
    var s1 := Step(s, Send(id, true));
    RunInv(Init(timeout), before);
    StepInv(s, Send(id, true));
    SendOutcome(s, id, true);
    assert forall k :: 0 <= k < r ==> s1.requests[k] == s1.requests[..r][k];
    if q: nat :| q < r && s.requests[q].id == id && s.requests[q].status == Unsettled {
      RegisteredIsOwner(s1, q);
      RegisteredIsOwner(s1, r);
      assert TakesForeign(Run(s1, []), SendFails(q), q, r);
    } else {
      SoleIsSafe(s1, r);
    }
  }

  /** What no step undoes: requests keep id and due time, settled ones their outcome. */
  ghost predicate Keeps(s: State, s': State) {
    && |s.requests| <= |s'.requests| && s.now <= s'.now && s'.timeout == s.timeout && s.stopOrphans <= s'.stopOrphans
    && forall k :: 0 <= k < |s.requests| ==>
         && s'.requests[k].id == s.requests[k].id && s'.requests[k].due == s.requests[k].due
         && (s.requests[k].status != Unsettled ==> s'.requests[k].status == s.requests[k].status)
         && (s'.requests[k].timer ==> s.requests[k].timer)
  }

  lemma {:induction false} SettleAllKeeps(s: State, fns: seq<nat>, status: Status)
    ensures Keeps(s, SettleAll(s, fns, status)) && SettleAll(s, fns, status).responses == s.responses
    decreases |fns|
  {
    if fns != [] { SettleAllKeeps(Settle(s, fns[0], status), fns[1..], status); }
  }

  lemma {:induction false} HandleByKeeps(s: State, msg: Incoming, k: nat)
    ensures Keeps(s, HandleBy(s, msg, k))
    ensures forall id :: id in HandleBy(s, msg, k).responses ==> id in s.responses
    decreases k
  {
    if k > 0 {
      var s1 := HandleOne(s, msg);
      if IsResponse(msg) && Emit(s.responses, msg.reqId.value).Called? {
        SettleAllKeeps(s.(responses := AfterEmit(s.responses, msg.reqId.value)),
                       Emit(s.responses, msg.reqId.value).fns, Resolved(msg));
        if msg.reqId.value !in s.responses { assert Persisting([]) == []; }
      }
      if s1.thrown <= s.thrown { HandleByKeeps(s1, msg, k - 1); }
    }
  }

  lemma StepKeeps(s: State, e: Event)
    ensures Keeps(s, Step(s, e))
  {
    if e.Receive? { HandleByKeeps(s, e.msg, s.subs); }
  }

  lemma HandleOneUnlists(s: State, msg: Incoming, r: nat)
    requires Inv(s) && Registered(HandleOne(s, msg), r)
    ensures Registered(s, r) && HandleOne(s, msg).requests[r].id == s.requests[r].id
  {
    if IsResponse(msg) {
      EmitResponseIs(s, msg.reqId.value, msg);
    } else if IsNotification(msg) {
      EmitNotificationIs(s, msg.kind.value, msg);
    }
  }

  lemma {:induction false} HandleByUnlists(s: State, msg: Incoming, k: nat, r: nat)
    requires Inv(s) && Registered(HandleBy(s, msg, k), r)
    ensures Registered(s, r)
    decreases k
  {
    if k > 0 {
      var s1 := HandleOne(s, msg);
      HandleOneInv(s, msg);
      if s1.thrown <= s.thrown { HandleByUnlists(s1, msg, k - 1, r); }
      HandleOneUnlists(s, msg, r);
    }
  }

  lemma SendUnlists(s: State, id: string, accepted: bool, r: nat)
    requires Inv(s) && r < |s.requests| && Registered(SendMessage(s, id, accepted), r)
    ensures Registered(s, r)
  {
    if ListenersOf(s.responses, id) == [] {
      var reg, n := Register(s, id), |s.requests|;
      assert s.started && !accepted ==> SendMessage(s, id, accepted) == Reject(reg, n, SendFailed);
      assert !s.started ==> SendMessage(s, id, accepted) == Reject(reg, n, NotStarted);
      if !s.started || !accepted { RejectUnlists(reg, n, if s.started then SendFailed else NotStarted, r); }
      RegisterUnlists(s, id, r);
    }
  }

  lemma RegisterUnlists(s: State, id: string, r: nat)
    requires r < |s.requests| && Registered(Register(s, id), r)
    ensures Registered(s, r)
  {
  }

  lemma RejectUnlists(s: State, q: nat, why: Reason, r: nat)
    requires Registered(Reject(s, q, why), r)
    ensures Registered(s, r)
  {
  }

  /** No step of the client registers a request that is not new. */
  lemma StepUnlists(s: State, ce: Event, r: nat)
    requires Inv(s) && r < |s.requests| && Registered(Step(s, ce), r)
    ensures Registered(s, r)
  {
    StepKeeps(s, ce);
    match ce
    case Send(id, accepted) => SendUnlists(s, id, accepted, r);
    case SendFails(_) =>
    case Timer(_) =>
    case Advance(_) =>
    case Receive(msg) => HandleByUnlists(s, msg, s.subs, r);
    case OnNotification(_, _) =>
    case Started =>
    case Subscribe =>
    case Stopped =>
    case Cleanup =>
  }

  lemma {:induction false} SettleAllCount(s: State, fns: seq<nat>, status: Status)
    ensures |SettleAll(s, fns, status).requests| == |s.requests|
    decreases |fns|
  {
    if fns != [] { SettleAllCount(Settle(s, fns[0], status), fns[1..], status); }
  }

  lemma {:induction false} HandleCount(s: State, msg: Incoming, k: nat)
    ensures |HandleBy(s, msg, k).requests| == |s.requests|
    decreases k
  {
    if k > 0 {
      var s1 := HandleOne(s, msg);
      if IsResponse(msg) && Emit(s.responses, msg.reqId.value).Called? {
        SettleAllCount(s.(responses := AfterEmit(s.responses, msg.reqId.value)),
                       Emit(s.responses, msg.reqId.value).fns, Resolved(msg));
      }
      if s1.thrown <= s.thrown { HandleCount(s1, msg, k - 1); }
    }
  }

  /** Only sends make requests. */
  lemma OthersKeepCount(s: State, e: Event)
    requires !e.Send?
    ensures |Step(s, e).requests| == |s.requests|
  {
    if e.Receive? { HandleCount(s, e.msg, s.subs); }
  }

  lemma StepListsOnlySent(s: State, e: Event, id: string)
    requires id !in s.responses && !(e.Send? && e.id == id)
    ensures id !in Step(s, e).responses
  {
    if e.Receive? { HandleByKeeps(s, e.msg, s.subs); }
  }

  lemma {:induction false} RunKeeps(s: State, es: seq<Event>)
    ensures Keeps(s, Run(s, es))
    decreases |es|
  {
    if es != [] {
      StepKeeps(s, es[0]);
      RunKeeps(Step(s, es[0]), es[1..]);
    }
  }

  // ---------- settlement ----------

  /** Main result: once the clock has passed the timeout, every request there was is settled, whether it was sent
      while started or stopped, answered, failed or orphaned; and its outcome stays from then on. */
  lemma BoundedSettlement(timeout: nat, before: seq<Event>, es: seq<Event>, more: seq<Event>)
    requires Run(Run(Init(timeout), before), es).now > Run(Init(timeout), before).now + timeout
    ensures var s, s' := Run(Init(timeout), before), Run(Run(Init(timeout), before), es);
            && |s.requests| <= |s'.requests|
            && forall k :: 0 <= k < |s.requests| ==>
                 && s'.requests[k].status != Unsettled
                 && |s'.requests| <= |Run(s', more).requests|
                 && Run(s', more).requests[k].status == s'.requests[k].status
  {
    var s := Run(Init(timeout), before);
    var s' := Run(s, es);
    RunInv(Init(timeout), before);
    RunInv(s, es);
    RunKeeps(Init(timeout), before);
    RunKeeps(s, es);
    RunKeeps(s', more);
  }

  /** Every unsettled request has a live timer due within the timeout. */
  lemma TimerPending(timeout: nat, es: seq<Event>, r: nat)
    requires IsUnsettled(Run(Init(timeout), es), r)
    ensures var s := Run(Init(timeout), es); s.requests[r].timer && s.now <= s.requests[r].due <= s.now + s.timeout
  {
    RunInv(Init(timeout), es);
  }

  function LiveTimers(s: State): set<nat> {
    set r | 0 <= r < |s.requests| && s.requests[r].timer
  }

  lemma {:induction false} EarliestTimer(s: State, rs: set<nat>) returns (r: nat)
    requires rs != {} && forall k :: k in rs ==> k < |s.requests|
    ensures r in rs && forall k :: k in rs ==> s.requests[r].due <= s.requests[k].due
    decreases |rs|
  {
    var x :| x in rs;
    if rs == {x} {
      r := x;
    } else {
      var y := EarliestTimer(s, rs - {x});
      r := if s.requests[x].due <= s.requests[y].due then x else y;
      forall k | k in rs ensures s.requests[r].due <= s.requests[k].due {
        if k != x { assert k in rs - {x}; }
      }
    }
  }

  ghost predicate ClockOnly(es: seq<Event>) {
    forall e :: e in es ==> e.Advance? || e.Timer?
  }

  /** No live timer is due after `deadline`. */
  ghost predicate DueBy(s: State, deadline: nat) {
    s.now <= deadline && forall k :: 0 <= k < |s.requests| && s.requests[k].timer ==> s.requests[k].due <= deadline
  }

  /** Passing the time to the earliest timer and firing it. */
  function FireAt(s: State, r: nat): State
    requires r < |s.requests| && s.now <= s.requests[r].due
  {
    Step(Step(s, Advance(s.requests[r].due - s.now)), Timer(r))
  }

  lemma EarliestMayAdvance(s: State, r: nat)
    requires Inv(s) && r in LiveTimers(s)
    requires forall k :: k in LiveTimers(s) ==> s.requests[r].due <= s.requests[k].due
    ensures s.now <= s.requests[r].due && MayAdvance(s, s.requests[r].due - s.now)
  {
    var dt := s.requests[r].due - s.now;
    forall k | 0 <= k < |s.requests| && s.requests[k].timer ensures s.now + dt <= s.requests[k].due {
      assert k in LiveTimers(s);
    }
  }

  lemma AdvanceToTimer(s: State, r: nat, deadline: nat)
    requires r in LiveTimers(s) && s.now <= s.requests[r].due && MayAdvance(s, s.requests[r].due - s.now)
    requires DueBy(s, deadline)
    ensures var s1 := s.(now := s.requests[r].due);
            && Step(s, Advance(s.requests[r].due - s.now)) == s1
            && Enabled(s1, Timer(r)) && DueBy(s1, deadline) && LiveTimers(s1) == LiveTimers(s)
  {
  }

  lemma FireEarliest(s: State, r: nat, deadline: nat)
    requires Inv(s) && DueBy(s, deadline) && r in LiveTimers(s)
    requires forall k :: k in LiveTimers(s) ==> s.requests[r].due <= s.requests[k].due
    ensures s.now <= s.requests[r].due && Inv(FireAt(s, r)) && DueBy(FireAt(s, r), deadline)
    ensures LiveTimers(FireAt(s, r)) == LiveTimers(s) - {r}
  {
    EarliestMayAdvance(s, r);
    AdvanceToTimer(s, r, deadline);
    AdvanceInv(s, s.requests[r].due - s.now);
    var s1 := s.(now := s.requests[r].due);
    assert FireAt(s, r) == Step(s1, Timer(r));
    TimerInv(s1, r);
    FiredTimers(s1, r);
  }

  lemma FiredTimers(s: State, r: nat)
    requires Enabled(s, Timer(r))
    ensures LiveTimers(Step(s, Timer(r))) == LiveTimers(s) - {r} && Step(s, Timer(r)).now == s.now
    ensures forall deadline: nat :: DueBy(s, deadline) ==> DueBy(Step(s, Timer(r)), deadline)
  {
  }

  lemma RunTwo(s: State, a: Event, b: Event, rest: seq<Event>)
    ensures Run(s, [a, b] + rest) == Run(Step(Step(s, a), b), rest)
  {
    assert ([a, b] + rest)[1..] == [b] + rest && ([b] + rest)[1..] == rest;
    assert Run(s, [a, b] + rest) == Run(Step(s, a), [b] + rest);
  }

  /** `es` is a run of the clock that ends by the deadline with every request settled. */
  ghost predicate SettlesBy(s: State, es: seq<Event>, deadline: nat) {
    && ClockOnly(es) && Run(s, es).now <= deadline
    && forall k: nat :: !IsUnsettled(Run(s, es), k)
  }

  lemma SettlesAfterFiring(s: State, r: nat, rest: seq<Event>, deadline: nat)
    requires r < |s.requests| && s.now <= s.requests[r].due && SettlesBy(FireAt(s, r), rest, deadline)
    ensures SettlesBy(s, [Advance(s.requests[r].due - s.now), Timer(r)] + rest, deadline)
  {
    RunTwo(s, Advance(s.requests[r].due - s.now), Timer(r), rest);
  }

  lemma {:induction false} ClockSettlesBy(s: State, deadline: nat) returns (es: seq<Event>)
    requires Inv(s) && DueBy(s, deadline)
    ensures SettlesBy(s, es, deadline)
    decreases |LiveTimers(s)|
  {
    if LiveTimers(s) == {} {
      es := [];
      forall k: nat ensures !IsUnsettled(s, k) { assert k !in LiveTimers(s); }
    } else {
      var r := EarliestTimer(s, LiveTimers(s));
      FireEarliest(s, r, deadline);
      assert LiveTimers(FireAt(s, r)) < LiveTimers(s);
      var rest := ClockSettlesBy(FireAt(s, r), deadline);
      SettlesAfterFiring(s, r, rest, deadline);
      es := [Advance(s.requests[r].due - s.now), Timer(r)] + rest;
    }
  }

  /** The clock alone can settle everything: from any reachable state, letting time pass by at most the timeout and
      firing the timers that come due settles every request. */
  lemma ClockSettlesAll(timeout: nat, before: seq<Event>) returns (es: seq<Event>)
    ensures SettlesBy(Run(Init(timeout), before), es, Run(Init(timeout), before).now + timeout)
  {
    var s := Run(Init(timeout), before);
    RunInv(Init(timeout), before);
    RunKeeps(Init(timeout), before);
    es := ClockSettlesBy(s, s.now + timeout);
  }

  // ---------- responses, notifications and restarts ----------

  /** Main result: a response settles the registered request with its id, with this response, however often the
      client was restarted; the repeated handlers change nothing (they throw only for the id "error"). */
  lemma ResponseHandledOnce(s: State, msg: Incoming, k: nat)
    requires Inv(s) && IsResponse(msg) && k >= 1
    ensures var s1, sk := HandleBy(s, msg, 1), HandleBy(s, msg, k);
            && sk == s1.(thrown := sk.thrown)
            && (sk.thrown != s1.thrown <==> k > 1 && msg.reqId.value == ERROR_EVENT && ERROR_EVENT in s.responses)
            && (forall r: nat :: Registered(s, r) && s.requests[r].id == msg.reqId.value ==>
                  r < |s1.requests| && s1.requests[r].status == Resolved(msg) && msg.reqId.value !in s1.responses)
            && (msg.reqId.value !in s.responses ==> s1.requests == s.requests && s1.responses == s.responses)
  {
    var id := msg.reqId.value;
    EmitResponseIs(s, id, msg);
    var s1 := HandleOne(s, msg);
    assert HandleBy(s1, msg, 0) == s1;
    EmitResponseInv(s, id, msg);
    EmitResponseIs(s1, id, msg);
    forall r: nat | Registered(s, r) && s.requests[r].id == id
      ensures r < |s1.requests| && s1.requests[r].status == Resolved(msg)
    {
      RegisteredIsOwner(s, r);
    }
    if id in s.responses { assert Owns(s, id); }
    if k > 1 && s1.thrown <= s.thrown {
      UnheardResponse(s1, msg, k - 1);
    }
  }

  /** A response nobody waits for does nothing, or throws once for the id "error". */
  lemma {:induction false} UnheardResponse(s: State, msg: Incoming, k: nat)
    requires Inv(s) && IsResponse(msg) && msg.reqId.value !in s.responses && k >= 1
    ensures HandleBy(s, msg, k) == if msg.reqId.value == ERROR_EVENT then s.(thrown := s.thrown + 1) else s
    decreases k
  {
    EmitResponseIs(s, msg.reqId.value, msg);
    if k > 1 && msg.reqId.value != ERROR_EVENT { UnheardResponse(s, msg, k - 1); }
  }

  function Repeat(ds: seq<Delivery>, k: nat): seq<Delivery> {
    if k == 0 then [] else ds + Repeat(ds, k - 1)
  }

  /** A notification that is heard, or that nobody listens for, only delivers. */
  lemma {:induction false} HeardEachTime(s: State, msg: Incoming, k: nat)
    requires NotificationsOk(s) && IsNotification(msg)
    requires ListenersOf(s.notifications, msg.kind.value) != [] || msg.kind.value != ERROR_EVENT
    ensures var ds := Deliveries(Functions(ListenersOf(s.notifications, msg.kind.value)), msg);
            HandleBy(s, msg, k) == s.(delivered := s.delivered + Repeat(ds, k))
    decreases k
  {
    var ds := Deliveries(Functions(ListenersOf(s.notifications, msg.kind.value)), msg);
    if k == 0 {
      assert s.delivered + [] == s.delivered;
    } else {
      var s1 := s.(delivered := s.delivered + ds);
      EmitNotificationIs(s, msg.kind.value, msg);
      assert HandleOne(s, msg) == s1;
      HeardEachTime(s1, msg, k - 1);
      assert s.delivered + ds + Repeat(ds, k - 1) == s.delivered + Repeat(ds, k);
    }
  }

  /** Main result: a notification reaches each of its listeners, in order, exactly once per subscription,
      and changes no table, request or promise. */
  lemma NotificationOncePerSubscription(s: State, msg: Incoming, k: nat)
    requires Inv(s) && IsNotification(msg)
    ensures var sk, ls := HandleBy(s, msg, k), ListenersOf(s.notifications, msg.kind.value);
            && sk == s.(delivered := sk.delivered, thrown := sk.thrown)
            && sk.delivered == s.delivered + Repeat(Deliveries(Functions(ls), msg), k)
            && (sk.thrown != s.thrown <==> k > 0 && ls == [] && msg.kind.value == ERROR_EVENT)
  {
    var ls := ListenersOf(s.notifications, msg.kind.value);
    if ls == [] && msg.kind.value == ERROR_EVENT {
      EmitNotificationIs(s, msg.kind.value, msg);
      EmptyRepeat(k);
      assert Deliveries(Functions(ls), msg) == [];
    } else {
      HeardEachTime(s, msg, k);
    }
  }

  lemma {:induction false} EmptyRepeat(k: nat)
    ensures Repeat([], k) == []
  {
    if k > 0 { EmptyRepeat(k - 1); }
  }

  /** In every reachable state a response to a registered request resolves it exactly if a start has completed
      before. */
  lemma ResponseNeedsSubscription(timeout: nat, es: seq<Event>, r: nat, msg: Incoming)
    requires Registered(Run(Init(timeout), es), r) && IsResponse(msg)
    requires msg.reqId.value == Run(Init(timeout), es).requests[r].id
    ensures var s := Run(Init(timeout), es);
            var s' := Step(s, Receive(msg));
            r < |s'.requests| && s'.requests[r].status == if s.subs > 0 then Resolved(msg) else Unsettled
  {
    var s := Run(Init(timeout), es);
    RunInv(Init(timeout), es);
    RegisteredIsOwner(s, r);
    assert Owns(s, s.requests[r].id);
    HandleByKeeps(s, msg, s.subs);
    if s.subs > 0 { ResponseHandledOnce(s, msg, s.subs); }
  }
}
