/** A run of a starting client that uses an id twice: the answer to a message kept from a rejected request resolves
    the later request, whose own message has never been handed to the socket. */
module EndToEndRuns {
  import opened Wrappers
  import E = EventEmitter
  import T = TransportModel
  import Q = TransportQuiescence
  import U = UmsModel
  import P = UmsProofs
  import L = LifecycleModel
  import opened EndToEnd
  import W = EndToEndMisleads

  const CONF := T.Conf(T.LEAVE_OPEN, 0)

  function Answer(x: string): U.Incoming {
    U.Message(Some(x), None, "")
  }

  function Opening(): seq<Event> {
    [Life(L.Start), Life(L.Resolved(Some(0))), Life(L.LoggedIn(Some(0)))]
    + [Transport(T.Connect(CONF, T.SocketCreated)), Life(L.ServiceResolved(L.SocketMade))]
  }

  function AskFirst(x: string, a: string): seq<Event> { [Request(x, a), Transport(T.Dispatch(0))] }

  function GiveUp(): seq<Event> { [Transport(T.PollTick(0))] }

  function AskAgain(x: string, b: string): seq<Event> { [Request(x, b), Transport(T.SocketOpen(0))] }

  function GoUp(): seq<Event> { [Life(L.Connected(true)), Transport(T.Dispatch(0))] }

  function Reply(x: string): seq<Event> { [ServerReceives(0), ServerAnswers(Answer(x))] }

  /** A start; while it connects, a request that is given up and kept, and another with its id; then the socket
      opens. */
  function ReusedId(x: string, a: string, b: string): seq<Event> {
    Opening() + (AskFirst(x, a) + (GiveUp() + (AskAgain(x, b) + (GoUp() + Reply(x)))))
  }

  function TaskA(x: string, a: string): T.Task { T.Task(0, T.Message(x, a), T.Caller(0)) }

  function TaskB(x: string, b: string): T.Task { T.Task(1, T.Message(x, b), T.Caller(1)) }

  function KeptA(x: string, a: string): T.Task { T.Requeued(TaskA(x, a)) }

  // ---------- the transport after each of its events, from the connect on ----------

  function T0(): T.State {
    T.State(Some(0), [T.CONNECTING], Some(0), [T.EMPTY_QUEUE], Some(CONF), None, {}, 0, 0, T.EMPTY_HISTORY)
  }

  function T1(x: string, a: string): T.State {
    T0().(queues := [T.Queue([TaskA(x, a)], None, false, true)],
          hist := T.EMPTY_HISTORY.(accepted := [T.Accepted(T.Message(x, a), 0)], batches := 1))
  }

  function T2(x: string, a: string): T.State {
    T1(x, a).(queues := [T.Queue([], Some(T.Flight(TaskA(x, a), T.Polling(0, -1))), false, true)])
  }

  function T3(x: string, a: string): T.State {
    T2(x, a).(queues := [T.Queue([KeptA(x, a)], None, false, true)],
              hist := T1(x, a).hist.(ran := [T.Ran(0, Some(0), false)]))
  }

  function T4(x: string, a: string, b: string): T.State {
    T3(x, a).(queues := [T.Queue([KeptA(x, a), TaskB(x, b)], None, false, true)],
              hist := T3(x, a).hist.(accepted := [T.Accepted(T.Message(x, a), 0), T.Accepted(T.Message(x, b), 1)],
                                     batches := 2))
  }

  function T5(x: string, a: string, b: string): T.State {
    T4(x, a, b).(sockets := [T.OPEN])
  }

  function T6(x: string, a: string, b: string): T.State {
    T5(x, a, b).(queues := [T.Queue([TaskB(x, b)], Some(T.Flight(KeptA(x, a), T.Sending)), false, true)],
                 hist := T4(x, a, b).hist.(handed := [KeptA(x, a)]))
  }

  lemma TransportSendsFirst(x: string, a: string)
    ensures T.Step(T0(), T.Send([T.Message(x, a)])) == T1(x, a)
  {
    Q.SendOne(T0(), T.Message(x, a));
    assert [] + [TaskA(x, a)] == [TaskA(x, a)];
    assert T0().hist.accepted + [T.Accepted(T.Message(x, a), 0)] == T1(x, a).hist.accepted;
  }

  lemma TransportSleeps(x: string, a: string)
    ensures T.Step(T1(x, a), T.Dispatch(0)) == T2(x, a)
  {
    assert T1(x, a).queues[0].waiting[1..] == [];
    assert T.TakeNext(T1(x, a), 0).queues == [T.EMPTY_QUEUE];
    assert T.Step(T1(x, a), T.Dispatch(0)) == T.Wait(T.TakeNext(T1(x, a), 0), 0, TaskA(x, a), 0, 0);
  }

  lemma TransportPutsBack(x: string, a: string)
    ensures T.Step(T2(x, a), T.PollTick(0)) == T3(x, a)
  {
    var s1 := T.SetFlight(T2(x, a), 0, None);
    assert s1.queues == [T.EMPTY_QUEUE];
    assert T.Step(T2(x, a), T.PollTick(0)) == T.PutBack(s1, 0, TaskA(x, a));
    var s2 := T.SetQueue(s1, 0, T.EMPTY_QUEUE.(waiting := [KeptA(x, a)]));
    assert [KeptA(x, a)] + [] == [KeptA(x, a)];
    assert s2.queues == T3(x, a).queues;
    assert T.PutBack(s1, 0, TaskA(x, a)) == T.Finish(s2, 0, TaskA(x, a), false);
  }

  lemma TransportSendsSecond(x: string, a: string, b: string)
    ensures T.Step(T3(x, a), T.Send([T.Message(x, b)])) == T4(x, a, b)
  {
    Q.SendOne(T3(x, a), T.Message(x, b));
    assert [KeptA(x, a)] + [TaskB(x, b)] == [KeptA(x, a), TaskB(x, b)];
    assert T3(x, a).hist.accepted + [T.Accepted(T.Message(x, b), 1)] == T4(x, a, b).hist.accepted;
  }

  lemma TransportOpens(x: string, a: string, b: string)
    ensures T.Step(T4(x, a, b), T.SocketOpen(0)) == T5(x, a, b)
  {
    assert T.Step(T4(x, a, b), T.SocketOpen(0)).queues == T5(x, a, b).queues;
  }

  lemma TransportHands(x: string, a: string, b: string)
    ensures T.Step(T5(x, a, b), T.Dispatch(0)) == T6(x, a, b)
  {
    assert T5(x, a, b).queues[0].waiting[1..] == [TaskB(x, b)];
    assert T.TakeNext(T5(x, a, b), 0).queues == [T.Queue([TaskB(x, b)], None, false, true)];
  }

  // ---------- the client ----------

  function Request0(x: string, status: U.Status): U.Request { U.Request(x, status, 10, true) }

  /** Started, connecting. */
  function Connecting(): L.State {
    var i := L.Init(10);
    i.(ums := i.ums.(started := true), pc := L.Connecting, domains := Some(0), session := Some(0),
       refreshTask := Some(0), timers := {0}, nextTimer := 1, linked := true)
  }

  /** The client while it connects, with these requests and listeners. */
  function Asked(requests: seq<U.Request>, responses: E.Table): L.State {
    Connecting().(ums := Connecting().ums.(requests := requests, responses := responses))
  }

  /** The client when it has connected. */
  function Up(requests: seq<U.Request>, responses: E.Table): L.State {
    Connecting().(ums := Connecting().ums.(requests := requests, responses := responses, subs := 1), pc := L.Idle,
                  up := true)
  }

  function Waits(x: string): U.Request { Request0(x, U.Unsettled) }

  function Failed(x: string): U.Request { Request0(x, U.Rejected(U.SendFailed)) }

  function Done(x: string): U.Request { Request0(x, U.Resolved(Answer(x))) }

  function Heard(x: string, r: nat): E.Table { map[x := [E.Listener(r, true)]] }

  /** The client behind its login. */
  function LoggedIn(): L.State {
    Connecting().(pc := L.ResolvingService, linked := false)
  }

  lemma Starts()
    ensures L.Step(L.Step(L.Step(L.Init(10), L.Start), L.Resolved(Some(0))), L.LoggedIn(Some(0))) == LoggedIn()
  {
    var i := L.Init(10);
    assert U.Step(i.ums, U.Started) == i.ums.(started := true);
    assert L.Step(i, L.Start) == i.(ums := i.ums.(started := true), pc := L.StartResolving);
    assert {} + {0} == {0};
  }

  lemma FirstFails(x: string)
    ensures L.Step(Asked([Waits(x)], Heard(x, 0)), L.Client(U.SendFails(0))) == Asked([Failed(x)], map[])
  {
    var s := Asked([Waits(x)], Heard(x, 0));
    assert U.Step(s.ums, U.SendFails(0)) == Asked([Failed(x)], map[]).ums;
  }

  lemma Completes(requests: seq<U.Request>, responses: E.Table)
    ensures L.Step(Asked(requests, responses), L.Connected(true)) == Up(requests, responses)
  {
    var s := Asked(requests, responses);
    assert U.Step(s.ums, U.Subscribe) == s.ums.(subs := 1);
  }

  lemma SecondResolves(x: string)
    ensures L.Step(Up([Failed(x), Waits(x)], Heard(x, 1)), L.Client(U.Receive(Answer(x))))
            == Up([Failed(x), Done(x)], map[])
  {
    var s := Up([Failed(x), Waits(x)], Heard(x, 1));
    var s' := Up([Failed(x), Done(x)], map[]);
    assert P.Owns(s.ums, x);
    P.EmitResponseIs(s.ums, x, Answer(x));
    assert U.HandleOne(s.ums, Answer(x)) == s'.ums;
    assert U.HandleBy(s.ums, Answer(x), 1) == U.HandleBy(s'.ums, Answer(x), 0);
  }

  // ---------- the system ----------

  function Sent1(x: string, a: string): seq<Sent> { [Sent(0, T.Message(x, a))] }

  function Sent2(x: string, a: string, b: string): seq<Sent> { [Sent(0, T.Message(x, a)), Sent(1, T.Message(x, b))] }

  /** A transport step without a failing callback leaves the client alone. */
  lemma Silent(s: State, te: T.Event, tr: T.State)
    requires T.Step(s.tr, te) == tr && tr.hist.ran == s.tr.hist.ran && !te.Send?
    ensures Step(s, Transport(te)) == s.(tr := tr)
  {
    assert tr.hist.ran[|s.tr.hist.ran|..] == [];
  }

  lemma Requested(s: State, x: string, body: string, tr: T.State)
    requires x !in s.life.ums.responses && s.life.ums.started && T.HasQueue(s.tr)
    requires T.Step(s.tr, T.Send([T.Message(x, body)])) == tr
    ensures var ums, n := s.life.ums, |s.life.ums.requests|;
            var asked := ums.(requests := ums.requests + [U.Request(x, U.Unsettled, ums.now + ums.timeout, true)],
                              responses := ums.responses[x := [E.Listener(n, true)]]);
            Step(s, Request(x, body))
            == s.(tr := tr, sent := s.sent + [Sent(n, T.Message(x, body))], life := s.life.(ums := asked))
  {
    assert [] + [E.Listener(|s.life.ums.requests|, true)] == [E.Listener(|s.life.ums.requests|, true)];
  }

  /** A state of the run; the events before the first request are taken together. */
  function At(i: nat, x: string, a: string, b: string): State
    requires i < 10
  {
    match i
    case 0 => State(Connecting(), T0(), [], {})
    case 1 => State(Asked([Waits(x)], Heard(x, 0)), T1(x, a), Sent1(x, a), {})
    case 2 => State(Asked([Waits(x)], Heard(x, 0)), T2(x, a), Sent1(x, a), {})
    case 3 => State(Asked([Failed(x)], map[]), T3(x, a), Sent1(x, a), {})
    case 4 => State(Asked([Failed(x), Waits(x)], Heard(x, 1)), T4(x, a, b), Sent2(x, a, b), {})
    case 5 => State(Asked([Failed(x), Waits(x)], Heard(x, 1)), T5(x, a, b), Sent2(x, a, b), {})
    case 6 => State(Up([Failed(x), Waits(x)], Heard(x, 1)), T5(x, a, b), Sent2(x, a, b), {})
    case 7 => State(Up([Failed(x), Waits(x)], Heard(x, 1)), T6(x, a, b), Sent2(x, a, b), {})
    case 8 => State(Up([Failed(x), Waits(x)], Heard(x, 1)), T6(x, a, b), Sent2(x, a, b), {x})
    case _ => State(Up([Failed(x), Done(x)], map[]), T6(x, a, b), Sent2(x, a, b), {x})
  }

  lemma Begins(x: string, a: string, b: string)
    ensures Run(Init(10), Opening()) == At(0, x, a, b)
  {
    var s3 := State(LoggedIn(), T.INIT, [], {});
    BeginsToStart();
    BeginsToConnect(x, a, b);
    W.TwoSteps(s3, Transport(T.Connect(CONF, T.SocketCreated)), Life(L.ServiceResolved(L.SocketMade)));
    W.RunAppend(Init(10), [Life(L.Start), Life(L.Resolved(Some(0))), Life(L.LoggedIn(Some(0)))],
                [Transport(T.Connect(CONF, T.SocketCreated)), Life(L.ServiceResolved(L.SocketMade))]);
  }

  lemma BeginsToStart()
    ensures Run(Init(10), [Life(L.Start), Life(L.Resolved(Some(0))), Life(L.LoggedIn(Some(0)))])
            == State(LoggedIn(), T.INIT, [], {})
  {
    Starts();
    ThreeSteps(Init(10), Life(L.Start), Life(L.Resolved(Some(0))), Life(L.LoggedIn(Some(0))));
  }

  lemma BeginsToConnect(x: string, a: string, b: string)
    ensures var s := State(LoggedIn(), T.INIT, [], {});
            Step(Step(s, Transport(T.Connect(CONF, T.SocketCreated))), Life(L.ServiceResolved(L.SocketMade)))
            == At(0, x, a, b)
  {
    assert T.Step(T.INIT, T.Connect(CONF, T.SocketCreated)) == T0();
    Silent(State(LoggedIn(), T.INIT, [], {}), T.Connect(CONF, T.SocketCreated), T0());
    assert L.Step(LoggedIn(), L.ServiceResolved(L.SocketMade)) == Connecting();
  }

  lemma ThreeSteps(s: State, a: Event, b: Event, c: Event)
    ensures Run(s, [a, b, c]) == Step(Step(Step(s, a), b), c)
  {
    W.TwoSteps(s, a, b);
    W.RunAppend(s, [a, b], [c]);
    assert [a, b] + [c] == [a, b, c] && [c][1..] == [];
    assert Run(Step(Step(s, a), b), [c]) == Run(Step(Step(Step(s, a), b), c), []);
  }

  lemma FirstIsSent(x: string, a: string, b: string)
    ensures Run(At(0, x, a, b), AskFirst(x, a)) == At(2, x, a, b)
  {
    TransportSendsFirst(x, a);
    Requested(At(0, x, a, b), x, a, T1(x, a));
    assert Step(At(0, x, a, b), Request(x, a)) == At(1, x, a, b);
    TransportSleeps(x, a);
    Silent(At(1, x, a, b), T.Dispatch(0), T2(x, a));
    W.TwoSteps(At(0, x, a, b), Request(x, a), Transport(T.Dispatch(0)));
  }

  lemma FirstIsRejected(x: string, a: string, b: string)
    ensures Run(At(2, x, a, b), GiveUp()) == At(3, x, a, b)
  {
    var s, r, e := At(2, x, a, b), T.Ran(0, Some(0), false), Transport(T.PollTick(0));
    TransportPutsBack(x, a);
    FirstFails(x);
    assert T3(x, a).hist.ran[0..] == [r] && [r][1..] == [];
    assert FailAll(s.life, [r], s.sent) == FailAll(FailOne(s.life, r, s.sent), [], s.sent);
    assert Step(s, e) == At(3, x, a, b);
    assert GiveUp()[1..] == [] && Run(s, GiveUp()) == Run(Step(s, e), []);
  }

  lemma SecondIsSent(x: string, a: string, b: string)
    ensures Run(At(3, x, a, b), AskAgain(x, b)) == At(5, x, a, b)
  {
    TransportSendsSecond(x, a, b);
    Requested(At(3, x, a, b), x, b, T4(x, a, b));
    assert Step(At(3, x, a, b), Request(x, b)) == At(4, x, a, b);
    TransportOpens(x, a, b);
    Silent(At(4, x, a, b), T.SocketOpen(0), T5(x, a, b));
    W.TwoSteps(At(3, x, a, b), Request(x, b), Transport(T.SocketOpen(0)));
  }

  lemma FirstIsHanded(x: string, a: string, b: string)
    ensures Run(At(5, x, a, b), GoUp()) == At(7, x, a, b)
  {
    Completes([Failed(x), Waits(x)], Heard(x, 1));
    assert Step(At(5, x, a, b), Life(L.Connected(true))) == At(6, x, a, b);
    TransportHands(x, a, b);
    Silent(At(6, x, a, b), T.Dispatch(0), T6(x, a, b));
    W.TwoSteps(At(5, x, a, b), Life(L.Connected(true)), Transport(T.Dispatch(0)));
  }

  lemma SecondIsAnswered(x: string, a: string, b: string)
    ensures Run(At(7, x, a, b), Reply(x)) == At(9, x, a, b)
  {
    SecondResolves(x);
    assert Step(At(7, x, a, b), ServerReceives(0)) == At(8, x, a, b);
    W.TwoSteps(At(7, x, a, b), ServerReceives(0), ServerAnswers(Answer(x)));
  }

  lemma Runs(s: State, a: seq<Event>, s1: State, rest: seq<Event>)
    requires Run(s, a) == s1
    ensures Run(s, a + rest) == Run(s1, rest)
  {
    W.RunAppend(s, a, rest);
  }

  lemma WholeRun(x: string, a: string, b: string)
    ensures Run(Init(10), ReusedId(x, a, b)) == At(9, x, a, b)
  {
    Begins(x, a, b);
    Runs(Init(10), Opening(), At(0, x, a, b), AskFirst(x, a) + (GiveUp() + (AskAgain(x, b) + (GoUp() + Reply(x)))));
    FirstIsSent(x, a, b);
    Runs(At(0, x, a, b), AskFirst(x, a), At(2, x, a, b), GiveUp() + (AskAgain(x, b) + (GoUp() + Reply(x))));
    FirstIsRejected(x, a, b);
    Runs(At(2, x, a, b), GiveUp(), At(3, x, a, b), AskAgain(x, b) + (GoUp() + Reply(x)));
    SecondIsSent(x, a, b);
    Runs(At(3, x, a, b), AskAgain(x, b), At(5, x, a, b), GoUp() + Reply(x));
    FirstIsHanded(x, a, b);
    Runs(At(5, x, a, b), GoUp(), At(7, x, a, b), Reply(x));
    SecondIsAnswered(x, a, b);
  }

  /** With an id used twice, a request can resolve whose message was never handed to the socket. */
  lemma ReusedIdMisleads(x: string, a: string, b: string)
    ensures var s := Run(Init(10), ReusedId(x, a, b));
            && s.life.ums.requests == [Request0(x, U.Rejected(U.SendFailed)), Request0(x, U.Resolved(Answer(x)))]
            && s.sent == [Sent(0, T.Message(x, a)), Sent(1, T.Message(x, b))]
            && s.tr.hist.accepted == [T.Accepted(T.Message(x, a), 0), T.Accepted(T.Message(x, b), 1)]
            && s.tr.hist.handed == [T.Task(0, T.Message(x, a), T.LogOnly)]
  {
    WholeRun(x, a, b);
  }
}
