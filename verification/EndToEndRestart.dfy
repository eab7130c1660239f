/** What a completed start leaves to send through: a queue exactly if the transport was not connected when the start
    connected it. After a failed logout it still is, so that the next start ends complete and mute. */
module EndToEndRestart {
  import opened Wrappers
  import T = TransportModel
  import O = TransportOutcome
  import Q = TransportQuiescence
  import H = TransportHandOver
  import U = UmsModel
  import P = UmsProofs
  import L = LifecycleModel
  import LP = LifecycleProofs
  import opened EndToEnd
  import opened EndToEndMisleads

  // ---------- the transport's part ----------

  /** The connect of a start, up to its new socket; if the old one is still open, it is closed first. */
  function Joins(tr: T.State, conf: T.Conf): seq<T.Event> {
    if T.IsConnected(tr)
    then [T.Connect(conf, T.SocketCreated), T.SocketClose(tr.ws.value), T.ConnectResumes(true, T.SocketCreated)]
    else [T.Connect(conf, T.SocketCreated)]
  }

  /** The transport has just got its newest socket, and has a queue exactly as said. */
  ghost predicate Joined(tr: T.State, n: nat, withQueue: bool) {
    && tr.ws == Some(n) && |tr.sockets| == n + 1 && tr.sockets[n] == T.CONNECTING
    && (if withQueue then T.HasQueue(tr) else tr.sendingQueue == None)
  }

  lemma ConnectJoins(tr: T.State, conf: T.Conf)
    ensures var tr' := T.Run(tr, Joins(tr, conf));
            Joined(tr', |tr.sockets|, !T.IsConnected(tr)) && tr'.hist.ran == tr.hist.ran
  {
    if T.IsConnected(tr) { Replaces(tr, conf); } else { H.RunOne(tr, T.Connect(conf, T.SocketCreated)); }
  }

  lemma Replaces(tr: T.State, conf: T.Conf)
    requires T.IsConnected(tr)
    ensures var tr' := T.Run(tr, Joins(tr, conf)); Joined(tr', |tr.sockets|, false) && tr'.hist.ran == tr.hist.ran
  {
    var es := Joins(tr, conf);
    var t1 := T.Step(tr, es[0]);
    var t2 := T.Step(t1, es[1]);
    O.DisconnectExtends(T.CreateQueue(tr, conf), true);
    Q.DisconnectFrame(T.CreateQueue(tr, conf), true);
    assert t1.sendingQueue == None && t1.resuming > 0 && |t1.sockets| == |tr.sockets|;
    H.RunTwo(tr, es[0], es[1]);
    H.RunAppend(tr, [es[0], es[1]], [es[2]]);
    H.RunOne(t2, es[2]);
    assert [es[0], es[1]] + [es[2]] == es;
  }

  lemma {:induction false} SilentRun(s: State, es: seq<T.Event>)
    requires O.NoSend(es) && T.Run(s.tr, es).hist.ran == s.tr.hist.ran
    ensures Run(s, OnTransport(es)) == s.(tr := T.Run(s.tr, es))
    decreases |es|
  {
    if es != [] {
      var tr1 := T.Step(s.tr, es[0]);
      O.StepExtends(s.tr, es[0]);
      O.RunExtends(tr1, es[1..]);
      assert T.Run(s.tr, es) == T.Run(tr1, es[1..]);
      assert tr1.hist.ran == s.tr.hist.ran && tr1.hist.ran[|s.tr.hist.ran|..] == [];
      assert Step(s, Transport(es[0])) == s.(tr := tr1);
      SilentRun(s.(tr := tr1), es[1..]);
      assert OnTransport(es)[1..] == OnTransport(es[1..]);
    }
  }

  // ---------- the end of a start ----------

  /** The rest of the start, once its connect has made socket `n`. */
  function Finish(n: nat): seq<Event> {
    [Life(L.ServiceResolved(L.SocketMade)), Transport(T.SocketOpen(n)), Life(L.Connected(true))]
  }

  /** From the resolved session on, a start in which everything succeeds. */
  function Connects(tr: T.State, conf: T.Conf): seq<Event> {
    OnTransport(Joins(tr, conf)) + Finish(|tr.sockets|)
  }

  lemma Completes(life: L.State)
    requires LP.Inv(life) && life.pc == L.ResolvingService
    ensures L.Step(L.Step(life, L.ServiceResolved(L.SocketMade)), L.Connected(true)).up
  {
  }

  lemma Opens(tr: T.State, n: nat, withQueue: bool)
    requires Joined(tr, n, withQueue)
    ensures var tr' := T.Step(tr, T.SocketOpen(n));
            && T.IsConnected(tr') && tr'.hist.ran == tr.hist.ran
            && if withQueue then T.HasQueue(tr') else tr'.sendingQueue == None
  {
  }

  lemma Finishes(s: State, n: nat, withQueue: bool)
    requires Joined(s.tr, n, withQueue) && LP.Inv(s.life) && s.life.pc == L.ResolvingService
    ensures var s' := Run(s, Finish(n));
            && s'.life.up && T.IsConnected(s'.tr)
            && if withQueue then T.HasQueue(s'.tr) else s'.tr.sendingQueue == None
  {
    var a, b, c := Finish(n)[0], Finish(n)[1], Finish(n)[2];
    var s1 := Step(s, a);
    assert s1 == s.(life := L.Step(s.life, L.ServiceResolved(L.SocketMade)));
    Opens(s.tr, n, withQueue);
    var tr' := T.Step(s.tr, T.SocketOpen(n));
    assert tr'.hist.ran[|s.tr.hist.ran|..] == [];
    assert Step(s1, b) == s1.(tr := tr');
    Completes(s.life);
    TwoSteps(s, a, b);
    RunAppend(s, [a, b], [c]);
    assert [a, b] + [c] == Finish(n) && [c][1..] == [];
    assert Run(Step(s1, b), [c]) == Run(Step(Step(s1, b), c), []);
  }

  lemma ConnectsEnds(s: State, conf: T.Conf)
    requires LP.Inv(s.life) && s.life.pc == L.ResolvingService
    ensures var s' := Run(s, Connects(s.tr, conf));
            && s'.life.up && T.IsConnected(s'.tr)
            && if T.IsConnected(s.tr) then s'.tr.sendingQueue == None else T.HasQueue(s'.tr)
  {
    var es, n := Joins(s.tr, conf), |s.tr.sockets|;
    ConnectJoins(s.tr, conf);
    SilentRun(s, es);
    Finishes(s.(tr := T.Run(s.tr, es)), n, !T.IsConnected(s.tr));
    RunAppend(s, OnTransport(es), Finish(n));
  }

  /** Main result. In every reachable state, a start that has its session and in which everything else succeeds ends
      complete and connected; the next request reaches the transport's queue if and only if the transport was not
      connected before. */
  lemma StartSendsIff(timeout: nat, before: seq<Event>, conf: T.Conf, id: string, body: string)
    requires Run(Init(timeout), before).life.pc == L.ResolvingService
    ensures var s := Run(Init(timeout), before); var s1 := Run(s, Connects(s.tr, conf));
            && s1.life.up && T.IsConnected(s1.tr)
            && (Step(s1, Request(id, body)).tr.hist.accepted != s1.tr.hist.accepted
                <==> !T.IsConnected(s.tr) && id !in s1.life.ums.responses)
  {
    var s := Run(Init(timeout), before);
    InitInv(timeout);
    RunInv(Init(timeout), before);
    ConnectsEnds(s, conf);
    RunInv(s, Connects(s.tr, conf));
    RequestAccepted(Run(s, Connects(s.tr, conf)), id, body);
  }

  /** A request of a started client is accepted exactly if it is no duplicate and the transport has a queue. */
  lemma RequestAccepted(s: State, id: string, body: string)
    requires LP.Inv(s.life) && s.life.up && (T.HasQueue(s.tr) || s.tr.sendingQueue == None)
    ensures Step(s, Request(id, body)).tr.hist.accepted != s.tr.hist.accepted
            <==> T.HasQueue(s.tr) && id !in s.life.ums.responses
  {
    SendAccepts(s.tr, T.Message(id, body));
    assert id in s.life.ums.responses ==> P.Owns(s.life.ums, id);
  }

  // ---------- a restart after a failed logout ----------

  /** A stop whose logout fails, and the next start up to its connect; the kept session is refreshed first. */
  function Again(domains: nat, session: nat): seq<L.Event> {
    [L.Stop, L.LoggedOut(false)] + (LP.RefreshPart(Some(domains), true) + [L.LoggedIn(Some(session))])
  }

  lemma LogoutFails(life: L.State)
    requires LP.Inv(life) && life.up && life.pc == L.Idle
    ensures L.Enabled(L.Run(life, [L.Stop, L.LoggedOut(false)]), L.Start)
  {
    LP.ThreeSteps(life, L.Stop, L.LoggedOut(false), L.LinkLost);
  }

  lemma LogsIn(life: L.State, domains: nat, session: nat)
    requires LP.Inv(life) && L.Enabled(life, L.Start)
    ensures L.Run(life, LP.RefreshPart(Some(domains), true) + [L.LoggedIn(Some(session))]).pc == L.ResolvingService
  {
    LP.StartRefreshes(life, Some(domains), true);
    LP.RunAppend(life, LP.RefreshPart(Some(domains), true), [L.LoggedIn(Some(session))]);
    var l1 := L.Run(life, LP.RefreshPart(Some(domains), true));
    assert l1.pc == L.LoggingIn;
    LP.OneStep(l1, L.LoggedIn(Some(session)), []);
  }

  lemma StartsAgain(life: L.State, domains: nat, session: nat)
    requires LP.Inv(life) && life.up && life.pc == L.Idle
    ensures var life' := L.Run(life, Again(domains, session));
            life'.pc == L.ResolvingService && LP.Inv(life')
  {
    var a, b := [L.Stop, L.LoggedOut(false)], LP.RefreshPart(Some(domains), true) + [L.LoggedIn(Some(session))];
    LogoutFails(life);
    LP.RunInv(life, a);
    LogsIn(L.Run(life, a), domains, session);
    LP.RunAppend(life, a, b);
    LP.RunInv(life, Again(domains, session));
  }

  /** The client alone stops and starts again; its transport is left alone until the connect. */
  function Restart(tr: T.State, conf: T.Conf, domains: nat, session: nat): seq<Event> {
    OnLife(Again(domains, session)) + Connects(tr, conf)
  }

  lemma RestartEnds(s: State, conf: T.Conf, domains: nat, session: nat)
    requires LP.Inv(s.life) && s.life.up && s.life.pc == L.Idle && T.IsConnected(s.tr)
    ensures var s' := Run(s, Restart(s.tr, conf, domains, session));
            s'.life.up && T.IsConnected(s'.tr) && s'.tr.sendingQueue == None
  {
    var a := Again(domains, session);
    StartsAgain(s.life, domains, session);
    RunLife(s, a);
    ConnectsEnds(s.(life := L.Run(s.life, a)), conf);
    RunAppend(s, OnLife(a), Connects(s.tr, conf));
  }

  ghost predicate NoConnect(es: seq<Event>) {
    forall e :: e in es ==> !(e.Transport? && e.te.Connect?)
  }

  lemma {:induction false} NoQueueRun(s: State, es: seq<Event>)
    requires s.tr.sendingQueue == None && NoConnect(es)
    ensures Run(s, es).tr.sendingQueue == None
    decreases |es|
  {
    if es != [] {
      if es[0].Transport? { NoQueueStep(s.tr, es[0].te); }
      NoQueueRun(Step(s, es[0]), es[1..]);
    }
  }

  lemma NoQueueStep(tr: T.State, te: T.Event)
    requires tr.sendingQueue == None && !te.Connect?
    ensures T.Step(tr, te).sendingQueue == None
  {
    H.RunOne(tr, te);
    Q.NoQueueRun(tr, [te]);
  }

  /** A request made without a queue is never accepted and never waits. */
  lemma MuteRequest(s: State, id: string, body: string)
    requires P.Inv(s.life.ums) && s.tr.sendingQueue == None
    ensures var s', r := Step(s, Request(id, body)), |s.life.ums.requests|;
            && s'.tr.hist.accepted == s.tr.hist.accepted
            && r < |s'.life.ums.requests| && s'.life.ums.requests[r].status.Rejected?
  {
    P.SendOutcome(s.life.ums, id, false);
    SendAccepts(s.tr, T.Message(id, body));
    assert Step(s, Request(id, body)).life.ums == U.Step(s.life.ums, U.Send(id, false));
  }

  /** Main result. From every reachable state of a complete, connected client: a stop whose logout fails and a start in
      which everything succeeds end complete and connected, and from then on, in every run up to the next connect, every
      request is rejected at once and no message is accepted. */
  lemma RestartIsMute(timeout: nat, before: seq<Event>, conf: T.Conf, domains: nat, session: nat, es: seq<Event>,
                      id: string, body: string)
    requires var s := Run(Init(timeout), before); s.life.up && s.life.pc == L.Idle && T.IsConnected(s.tr)
    requires NoConnect(es)
    ensures var s := Run(Init(timeout), before);
            var s1 := Run(s, Restart(s.tr, conf, domains, session));
            var s2 := Run(s1, es);
            var s', r := Step(s2, Request(id, body)), |s2.life.ums.requests|;
            && s1.life.up && T.IsConnected(s1.tr)
            && s'.tr.hist.accepted == s2.tr.hist.accepted
            && r < |s'.life.ums.requests| && s'.life.ums.requests[r].status.Rejected?
  {
    var s := Run(Init(timeout), before);
    var s1 := Run(s, Restart(s.tr, conf, domains, session));
    InitInv(timeout);
    RunInv(Init(timeout), before);
    RunInv(s, Restart(s.tr, conf, domains, session));
    RunInv(s1, es);
    RestartEnds(s, conf, domains, session);
    NoQueueRun(s1, es);
    MuteRequest(Run(s1, es), id, body);
  }
}
