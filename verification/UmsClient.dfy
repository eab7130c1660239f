/** The client as one object that changes in place: the fields that CsdsClient, LeClient, TransportClient and UmsClient
    keep, and the two emitters. Every public method is one step of the lifecycle model and keeps its invariant, so
    what is proved of all runs of the model holds of these objects. */
module UmsClient {
  import opened Wrappers
  import E = EventEmitter
  import U = UmsModel
  import UP = UmsProofs
  import L = LifecycleModel
  import LP = LifecycleProofs

  // ---------- what some of the steps come to ----------

  lemma SendStep(s: L.State, id: string, accepted: bool)
    ensures L.Step(s, L.Client(U.Send(id, accepted))) == s.(ums := U.SendMessage(s.ums, id, accepted))
  {
  }

  lemma TimerStep(s: L.State, r: nat)
    requires r < |s.ums.requests| && s.ums.requests[r].timer && s.ums.requests[r].due <= s.ums.now
    ensures L.Step(s, L.Client(U.Timer(r))) == s.(ums := U.Reject(U.StopTimer(s.ums, r), r, U.TimedOut))
  {
  }

  lemma ConnectedStep(s: L.State, ok: bool)
    requires s.pc == L.Connecting && s.ums.started
    ensures L.Step(s, L.Connected(ok)) ==
            if ok then s.(ums := s.ums.(subs := s.ums.subs + 1), pc := L.Idle, up := true) else s.(pc := L.Idle)
  {
  }

  lemma ServiceStep(s: L.State, reach: L.Reach)
    requires s.pc == L.ResolvingService
    ensures L.Step(s, L.ServiceResolved(reach)) == L.DoServiceResolved(s, reach)
  {
  }

  lemma StartStep(s: L.State)
    ensures L.Step(s, L.Start) == if s.pc == L.Idle && !s.ums.started
                                  then s.(ums := s.ums.(started := true), pc := L.StartResolving, down := false) else s
  {
  }

  lemma DisconnectedStep(s: L.State, ok: bool)
    requires s.pc == L.Disconnecting
    ensures L.Step(s, L.Disconnected(ok)) ==
            if ok then s.(ums := U.CleanUp(s.ums), pc := L.Idle, down := true) else s.(pc := L.Idle)
  {
  }

  class Client {
    const umsRequestTimeout: nat
    const umsResponseHandler: E.TypedEventEmitter
    const umsNotificationHandler: E.TypedEventEmitter

    // the state machine: its state, and where the hook of a pending transition waits
    var started: bool
    var pending: L.Pc

    var csdsDomains: Option<nat>
    var leSession: Option<nat>
    var refreshTask: Option<nat>

    // the world around the client
    var liveTimers: set<nat>
    var nextTimer: nat
    var linked: bool
    var now: nat
    var subscriptions: nat
    var requests: seq<U.Request>

    ghost var stopOrphans: set<nat>
    ghost var delivered: seq<U.Delivery>
    ghost var thrown: nat
    ghost var up: bool
    ghost var down: bool

    ghost function Ums(): U.State
      reads this, umsResponseHandler, umsNotificationHandler
    {
      U.State(umsRequestTimeout, now, started, subscriptions, umsResponseHandler.table, umsNotificationHandler.table,
              requests, stopOrphans, delivered, thrown)
    }

    ghost function View(): L.State
      reads this, umsResponseHandler, umsNotificationHandler
    {
      L.State(Ums(), pending, csdsDomains, leSession, refreshTask, liveTimers, nextTimer, linked, up, down)
    }

    /** The emitters are the client's own and not the same. */
    ghost predicate Separate()
      reads this, umsResponseHandler, umsNotificationHandler
    {
      umsResponseHandler != umsNotificationHandler && umsResponseHandler.Valid() && umsNotificationHandler.Valid()
    }

    ghost predicate Valid()
      reads this, umsResponseHandler, umsNotificationHandler
    {
      Separate() && LP.Inv(View())
    }

    constructor (umsRequestTimeout: nat)
      ensures Valid() && View() == L.Init(umsRequestTimeout)
      ensures fresh(umsResponseHandler) && fresh(umsNotificationHandler)
    {
      this.umsRequestTimeout := umsRequestTimeout;
      umsResponseHandler := new E.TypedEventEmitter();
      umsNotificationHandler := new E.TypedEventEmitter();
      started, pending := false, L.Idle;
      csdsDomains, leSession, refreshTask := None, None, None;
      liveTimers, nextTimer, linked, now, subscriptions, requests := {}, 0, false, 0, 0, [];
      stopOrphans, delivered, thrown, up, down := {}, [], 0, false, false;
    }

    // ---------- requests ----------

    /** Settling a promise that is settled already does nothing. */
    method Settle(r: nat, status: U.Status)
      modifies this`requests
      ensures Ums() == U.Settle(old(Ums()), r, status)
    {
      if r < |requests| && requests[r].status == U.Unsettled {
        requests := requests[r := requests[r].(status := status)];
      }
    }

    /** The rejection reaches the handler of `sendMessage`, which removes the listeners of the id. */
    method Reject(r: nat, why: U.Reason)
      requires Separate()
      modifies this`requests, umsResponseHandler
      ensures Separate() && Ums() == U.Reject(old(Ums()), r, why)
    {
      if r < |requests| && requests[r].status == U.Unsettled {
        Settle(r, U.Rejected(why));
        umsResponseHandler.RemoveAllListeners(requests[r].id);
      }
    }

    method Register(id: string) returns (r: nat)
      requires Separate()
      modifies this`requests, umsResponseHandler
      ensures Separate() && r == |old(requests)| && Ums() == U.Register(old(Ums()), id)
    {
      r := |requests|;
      umsResponseHandler.Once(id, r);
      requests := requests + [U.Request(id, U.Unsettled, now + umsRequestTimeout, true)];
    }

    /** `accepted` tells whether the transport took the message without failing at once. */
    method Request(id: string, accepted: bool)
      requires Separate()
      modifies this`requests, umsResponseHandler
      ensures Separate() && Ums() == U.SendMessage(old(Ums()), id, accepted)
    {
      var listeners := umsResponseHandler.ListenerCount(id);
      if listeners > 0 {
        requests := requests + [U.Request(id, U.Rejected(U.InProgress), now, false)];
        return;
      }
      var r := Register(id);
      if !started {
        Reject(r, U.NotStarted);
      } else if !accepted {
        Reject(r, U.SendFailed);
      }
    }

    method SendMessage(id: string, accepted: bool)
      requires Valid()
      modifies this`requests, umsResponseHandler
      ensures Valid() && View() == L.Step(old(View()), L.Client(U.Send(id, accepted)))
    {
      Request(id, accepted);
      SendStep(old(View()), id, accepted);
      LP.StepInv(old(View()), L.Client(U.Send(id, accepted)));
    }

    /** The transport reports later that it could not send. */
    method SendFailed(r: nat)
      requires Valid()
      modifies this`requests, umsResponseHandler
      ensures Valid() && View() == L.Step(old(View()), L.Client(U.SendFails(r)))
    {
      if r < |requests| {
        Reject(r, U.SendFailed);
      }
      LP.StepInv(old(View()), L.Client(U.SendFails(r)));
    }

    method TimeoutFired(r: nat)
      requires Valid()
      requires r < |requests| && requests[r].timer && requests[r].due <= now
      modifies this`requests, umsResponseHandler
      ensures Valid() && View() == L.Step(old(View()), L.Client(U.Timer(r)))
    {
      requests := requests[r := requests[r].(timer := false)];
      assert Ums() == U.StopTimer(old(Ums()), r);
      Reject(r, U.TimedOut);
      TimerStep(old(View()), r);
      LP.StepInv(old(View()), L.Client(U.Timer(r)));
    }

    /** Each id has one listener, so counting the ids counts the requests, once no stop has left an orphan. */
    method PendingMessages() returns (n: nat)
      requires Valid()
      ensures n == |umsResponseHandler.table.Keys|
      ensures UP.NoOrphans(Ums()) ==> n == |UP.UnsettledSet(Ums())|
    {
      n := umsResponseHandler.EventNameCount();
      if UP.NoOrphans(Ums()) {
        UP.NoOrphansExact(Ums());
      }
    }

    // ---------- incoming messages ----------

    /** Calls the settling functions in turn. */
    method SettleAll(fns: seq<nat>, status: U.Status)
      modifies this`requests
      ensures Ums() == U.SettleAll(old(Ums()), fns, status)
    {
      var i := 0;
      assert fns[0..] == fns;
      while i < |fns|
        invariant 0 <= i <= |fns|
        invariant U.SettleAll(Ums(), fns[i..], status) == U.SettleAll(old(Ums()), fns, status)
      {
        assert fns[i..][1..] == fns[i + 1..];
        Settle(fns[i], status);
        i := i + 1;
      }
      assert fns[i..] == [];
    }

    method EmitResponse(id: string, msg: U.Incoming) returns (threw: bool)
      requires Separate()
      modifies this`requests, this`thrown, umsResponseHandler
      ensures Separate() && Ums() == U.EmitResponse(old(Ums()), id, msg)
      ensures threw <==> thrown > old(thrown)
    {
      var r := umsResponseHandler.EmitEvent(id);
      threw := r.Threw?;
      match r
      case Threw => thrown := thrown + 1;
      case Called(fns) => SettleAll(fns, U.Resolved(msg));
    }

    method EmitNotification(kind: string, msg: U.Incoming) returns (threw: bool)
      requires Separate()
      modifies this`delivered, this`thrown, umsNotificationHandler
      ensures Separate() && Ums() == U.EmitNotification(old(Ums()), kind, msg)
      ensures threw <==> thrown > old(thrown)
    {
      var r := umsNotificationHandler.EmitEvent(kind);
      threw := r.Threw?;
      match r
      case Threw => thrown := thrown + 1;
      case Called(fns) => delivered := delivered + U.Deliveries(fns, msg);
    }

    /** The handler that each completed start subscribes to the transport. */
    method HandleMessage(msg: U.Incoming) returns (threw: bool)
      requires Separate()
      modifies this`requests, this`delivered, this`thrown, umsResponseHandler, umsNotificationHandler
      ensures Separate() && Ums() == U.HandleOne(old(Ums()), msg)
      ensures threw <==> thrown > old(thrown)
    {
      threw := false;
      if msg.Message? {
        if msg.reqId.Some? {
          threw := EmitResponse(msg.reqId.value, msg);
        } else if msg.kind.Some? && msg.kind.value != "" {
          threw := EmitNotification(msg.kind.value, msg);
        }
      }
    }

    /** The transport calls its subscribers in turn; an exception ends the round. */
    method Dispatch(msg: U.Incoming)
      requires Separate()
      modifies this`requests, this`delivered, this`thrown, umsResponseHandler, umsNotificationHandler
      ensures Separate() && Ums() == U.HandleBy(old(Ums()), msg, subscriptions)
    {
      var left, threw := subscriptions, false;
      while left > 0 && !threw
        invariant Separate() && 0 <= left <= subscriptions
        invariant !threw ==> U.HandleBy(Ums(), msg, left) == U.HandleBy(old(Ums()), msg, subscriptions)
        invariant threw ==> Ums() == U.HandleBy(old(Ums()), msg, subscriptions)
      {
        threw := HandleMessage(msg);
        left := left - 1;
      }
    }

    method Receive(msg: U.Incoming)
      requires Valid()
      modifies this`requests, this`delivered, this`thrown, umsResponseHandler, umsNotificationHandler
      ensures Valid() && View() == L.Step(old(View()), L.Client(U.Receive(msg)))
    {
      Dispatch(msg);
      LP.StepInv(old(View()), L.Client(U.Receive(msg)));
    }

    /** Throws, that is, returns false, unless the client is started. */
    method OnNotification(kind: string, fn: nat) returns (ok: bool)
      requires Valid()
      modifies umsNotificationHandler
      ensures Valid() && View() == L.Step(old(View()), L.Client(U.OnNotification(kind, fn)))
      ensures ok <==> started
    {
      ok := started;
      if started {
        umsNotificationHandler.On(kind, fn);
      }
      LP.StepInv(old(View()), L.Client(U.OnNotification(kind, fn)));
    }

    // ---------- starting ----------

    method QueueRefreshTask()
      modifies this`refreshTask, this`liveTimers, this`nextTimer
      ensures View() == L.QueueRefreshTask(old(View()))
    {
      refreshTask, liveTimers, nextTimer := Some(nextTimer), liveTimers + {nextTimer}, nextTimer + 1;
    }

    /** Returns false when the state machine refuses. */
    method Start() returns (ok: bool)
      requires Valid()
      modifies this`started, this`pending, this`down
      ensures Valid() && View() == L.Step(old(View()), L.Start) && (ok <==> L.Enabled(old(View()), L.Start))
    {
      ok := pending == L.Idle && !started;
      if ok {
        started, pending, down := true, L.StartResolving, false;
      }
      StartStep(old(View()));
      LP.StepInv(old(View()), L.Start);
    }

    /** `onStart` goes on behind its refresh. */
    method StartRefreshed()
      modifies this`pending, this`refreshTask, this`liveTimers, this`nextTimer
      ensures View() == L.StartRefreshed(old(View()))
    {
      pending := L.LoggingIn;
      QueueRefreshTask();
    }

    /** `login` has returned a session or failed. */
    method LoginDone(session: Option<nat>)
      requires Valid() && pending == L.LoggingIn
      modifies this`leSession, this`pending
      ensures Valid() && View() == L.Step(old(View()), L.LoggedIn(session))
    {
      if session == None {
        pending := L.Idle;
      } else {
        leSession, pending := session, L.ResolvingService;
      }
      LP.StepInv(old(View()), L.LoggedIn(session));
    }

    /** The service is resolved or not; then `connect` makes a socket or fails. */
    method ServiceResolved(reach: L.Reach)
      requires Valid() && pending == L.ResolvingService
      modifies this`linked, this`pending
      ensures Valid() && View() == L.Step(old(View()), L.ServiceResolved(reach))
    {
      match reach {
        case Unresolved =>
          pending := L.Idle;
        case NoSocket(kept) =>
          linked, pending := linked && kept, L.Idle;
        case SocketMade =>
          linked, pending := true, L.Connecting;
      }
      ServiceStep(old(View()), reach);
      LP.StepInv(old(View()), L.ServiceResolved(reach));
    }

    /** The last await of `onStart`: only behind it is the message handler subscribed. */
    method ConnectDone(ok: bool)
      requires Valid() && pending == L.Connecting
      modifies this`subscriptions, this`pending, this`up
      ensures Valid() && View() == L.Step(old(View()), L.Connected(ok))
    {
      ConnectedStep(View(), ok);
      pending := L.Idle;
      if ok {
        subscriptions, up := subscriptions + 1, true;
      }
      LP.StepInv(old(View()), L.Connected(ok));
    }

    // ---------- refreshing ----------

    method Refresh() returns (ok: bool)
      requires Valid()
      modifies this`pending
      ensures Valid() && View() == L.Step(old(View()), L.Refresh) && (ok <==> L.Enabled(old(View()), L.Refresh))
    {
      ok := pending == L.Idle && started;
      if ok {
        pending := L.RefreshResolving(L.Manual);
      }
      LP.StepInv(old(View()), L.Refresh);
    }

    /** A refresh timer fires: it refreshes if the state machine allows it, and queues the next one behind that. */
    method RefreshTimerFired(handle: nat)
      requires Valid() && handle in liveTimers
      modifies this`pending, this`refreshTask, this`liveTimers, this`nextTimer
      ensures Valid() && View() == L.Step(old(View()), L.Tick(handle))
    {
      liveTimers := liveTimers - {handle};
      if pending == L.Idle && started {
        pending := L.RefreshResolving(L.ByTick);
      } else {
        QueueRefreshTask();
      }
      LP.StepInv(old(View()), L.Tick(handle));
    }

    method RefreshDone(origin: L.Origin)
      modifies this`pending, this`refreshTask, this`liveTimers, this`nextTimer
      ensures View() == L.RefreshDone(old(View()), origin)
    {
      pending := L.Idle;
      if origin == L.ByTick {
        QueueRefreshTask();
      }
    }

    /** The directory has arrived, in a start or in a refresh. */
    method DomainsArrived(domains: Option<nat>)
      requires pending == L.StartResolving || pending.RefreshResolving?
      modifies this`csdsDomains, this`pending, this`refreshTask, this`liveTimers, this`nextTimer
      ensures View() == L.DoResolved(old(View()), domains)
    {
      if domains == None {
        pending := L.Idle;
        return;
      }
      csdsDomains := domains;
      if pending == L.StartResolving {
        if leSession.Some? { pending := L.StartRefreshingSession; } else { StartRefreshed(); }
      } else {
        if leSession.Some? { pending := L.RefreshingSession(pending.origin); } else { RefreshDone(pending.origin); }
      }
    }

    method ResolveDone(domains: Option<nat>)
      requires Valid() && (pending == L.StartResolving || pending.RefreshResolving?)
      modifies this`csdsDomains, this`pending, this`refreshTask, this`liveTimers, this`nextTimer
      ensures Valid() && View() == L.Step(old(View()), L.Resolved(domains))
    {
      DomainsArrived(domains);
      LP.StepInv(old(View()), L.Resolved(domains));
    }

    method SessionRefreshDone(ok: bool)
      requires Valid() && (pending == L.StartRefreshingSession || pending.RefreshingSession?)
      modifies this`pending, this`refreshTask, this`liveTimers, this`nextTimer
      ensures Valid() && View() == L.Step(old(View()), L.SessionRefreshed(ok))
    {
      if !ok {
        pending := L.Idle;
      } else if pending == L.StartRefreshingSession {
        StartRefreshed();
      } else {
        RefreshDone(pending.origin);
      }
      LP.StepInv(old(View()), L.SessionRefreshed(ok));
    }

    // ---------- stopping ----------

    method ClearRefreshTask()
      modifies this`csdsDomains, this`refreshTask, this`liveTimers
      ensures View() == L.CsdsOnStop(old(View()))
    {
      if refreshTask.Some? {
        liveTimers := liveTimers - {refreshTask.value};
      }
      refreshTask, csdsDomains := None, None;
    }

    method BeginDisconnect()
      modifies this`leSession, this`linked, this`pending
      ensures View() == L.BeginDisconnect(old(View()))
    {
      leSession, linked, pending := None, false, L.Disconnecting;
    }

    method BeginStop()
      modifies this`started, this`pending, this`csdsDomains, this`leSession, this`refreshTask, this`liveTimers,
               this`linked, this`up
      ensures View() == L.DoStop(old(View()))
    {
      started, up := false, false;
      ClearRefreshTask();
      if leSession.Some? { pending := L.LoggingOut; } else { BeginDisconnect(); }
    }

    method Stop() returns (ok: bool)
      requires Valid()
      modifies this`started, this`pending, this`csdsDomains, this`leSession, this`refreshTask, this`liveTimers,
               this`linked, this`up
      ensures Valid() && View() == L.Step(old(View()), L.Stop) && (ok <==> L.Enabled(old(View()), L.Stop))
    {
      ok := pending == L.Idle && started;
      if ok {
        BeginStop();
      }
      LP.StepInv(old(View()), L.Stop);
    }

    method LogoutDone(ok: bool)
      requires Valid() && pending == L.LoggingOut
      modifies this`leSession, this`linked, this`pending
      ensures Valid() && View() == L.Step(old(View()), L.LoggedOut(ok))
    {
      if ok { BeginDisconnect(); } else { pending := L.Idle; }
      LP.StepInv(old(View()), L.LoggedOut(ok));
    }

    /** All listeners go; the unsettled requests that had one are left to their timers. */
    method RemoveAllListeners()
      requires Separate()
      modifies this`stopOrphans, umsResponseHandler, umsNotificationHandler
      ensures Separate() && Ums() == U.CleanUp(old(Ums()))
    {
      stopOrphans := stopOrphans + U.RegisteredUnsettled(Ums());
      umsResponseHandler.RemoveEverything();
      umsNotificationHandler.RemoveEverything();
    }

    method DisconnectDone(ok: bool)
      requires Valid() && pending == L.Disconnecting
      modifies this`pending, this`down, this`stopOrphans, umsResponseHandler, umsNotificationHandler
      ensures Valid() && View() == L.Step(old(View()), L.Disconnected(ok))
    {
      if ok {
        RemoveAllListeners();
        down := true;
      }
      pending := L.Idle;
      DisconnectedStep(old(View()), ok);
      LP.StepInv(old(View()), L.Disconnected(ok));
    }
  }
}
