/** Runs of the whole lifecycle in which a request orphaned by a stop takes listeners that are not its own. */
module UmsRuns {
  import opened Wrappers
  import opened EventEmitter
  import opened UmsModel
  import opened UmsProofs
  import L = LifecycleModel
  import LP = LifecycleProofs

  /** Start, send, stop, start, and send the same id again; then the first request's timer comes due. */
  function Reuse(x: string): seq<L.Event> {
    LP.GoodStart(0, 0) + ([L.Client(Send(x, true))] + (LP.GoodStop() + (LP.GoodStart(1, 1) + Again(x))))
  }

  function Again(x: string): seq<L.Event> {
    [L.Client(Advance(1)), L.Client(Send(x, true)), L.Client(Advance(1))]
  }

  /** The first timer fires, the id is sent a third time, the second timer comes due. */
  function ThirdTime(x: string): seq<L.Event> {
    [L.Client(Timer(0)), L.Client(Send(x, true)), L.Client(Advance(1))]
  }

  function Waiting(x: string, due: nat): Request {
    Request(x, Unsettled, due, true)
  }

  /** The client after the stop, and after the second send. */
  function AfterStop(x: string): State {
    Init(2).(subs := 1, requests := [Waiting(x, 2)], stopOrphans := {0})
  }

  function Reused(x: string): State {
    AfterStop(x).(started := true, subs := 2, now := 2, requests := [Waiting(x, 2), Waiting(x, 3)],
                responses := map[x := [Listener(1, true)]])
  }

  function TimedOutFirst(x: string): State {
    Reused(x).(requests := [Request(x, Rejected(TimedOut), 2, false), Waiting(x, 3)], responses := map[])
  }

  function ReusedTwice(x: string): State {
    TimedOutFirst(x).(now := 3, requests := TimedOutFirst(x).requests + [Waiting(x, 4)],
                      responses := map[x := [Listener(2, true)]])
  }

  lemma SendFresh(s: State, x: string)
    requires ListenersOf(s.responses, x) == [] && s.started
    ensures Step(s, Send(x, true)) == s.(requests := s.requests + [Waiting(x, s.now + s.timeout)],
                                         responses := s.responses[x := [Listener(|s.requests|, true)]])
  {
    assert [] + [Listener(|s.requests|, true)] == [Listener(|s.requests|, true)];
  }

  function FirstSent(x: string): State {
    Init(2).(started := true, subs := 1, requests := [Waiting(x, 2)], responses := map[x := [Listener(0, true)]])
  }

  lemma StartAndSend(x: string)
    ensures var s := L.Step(L.Run(L.Init(2), LP.GoodStart(0, 0)), L.Client(Send(x, true)));
            s.ums == FirstSent(x) && s.up && s.pc == L.Idle && LP.Inv(s)
  {
    FirstStart();
    SendFirst(L.Run(L.Init(2), LP.GoodStart(0, 0)), x);
  }

  lemma FirstStart()
    ensures var s := L.Run(L.Init(2), LP.GoodStart(0, 0));
            s.ums == Init(2).(started := true, subs := 1) && s.up && s.pc == L.Idle && LP.Inv(s)
  {
    LP.StartSucceeds(L.Init(2), 0, 0);
    LP.RunInv(L.Init(2), LP.GoodStart(0, 0));
  }

  lemma SendFirst(s: L.State, x: string)
    requires s.ums == Init(2).(started := true, subs := 1) && s.up && s.pc == L.Idle && LP.Inv(s)
    ensures var s' := L.Step(s, L.Client(Send(x, true)));
            s'.ums == FirstSent(x) && s'.up && s'.pc == L.Idle && LP.Inv(s')
  {
    LP.StepInv(s, L.Client(Send(x, true)));
    SendFresh(s.ums, x);
  }

  lemma StopOrphans(s: L.State, x: string)
    requires s.ums == FirstSent(x) && s.up && s.pc == L.Idle && LP.Inv(s)
    ensures var s' := L.Run(s, LP.GoodStop());
            s'.ums == AfterStop(x) && s'.pc == L.Idle && s'.session == None && LP.Inv(s')
  {
    LP.RunInv(s, LP.GoodStop());
    LP.StopSucceeds(s);
    assert RegisteredUnsettled(FirstSent(x).(started := false)) == {0};
  }

  lemma SendAgain(s: L.State, x: string)
    requires s.ums == AfterStop(x).(started := true, subs := 2)
    ensures L.Run(s, Again(x)).ums == Reused(x)
  {
    var s1 := L.Step(s, L.Client(Advance(1)));
    SendFresh(s1.ums, x);
    LP.ThreeSteps(s, L.Client(Advance(1)), L.Client(Send(x, true)), L.Client(Advance(1)));
  }

  lemma ReuseRun(x: string)
    ensures L.Run(L.Init(2), Reuse(x)).ums == Reused(x)
  {
    var a, e, b, c := LP.GoodStart(0, 0), L.Client(Send(x, true)), LP.GoodStop(), LP.GoodStart(1, 1);
    var s1 := L.Run(L.Init(2), a);
    var s3 := L.Run(L.Step(s1, e), b);
    LP.RunAppend(L.Init(2), a, [e] + (b + (c + Again(x))));
    LP.OneStep(s1, e, b + (c + Again(x)));
    LP.RunAppend(L.Step(s1, e), b, c + Again(x));
    LP.RunAppend(s3, c, Again(x));
    StartAndSend(x);
    StopOrphans(L.Step(s1, e), x);
    LP.StartSucceeds(s3, 1, 1);
    SendAgain(L.Run(s3, c), x);
  }

  lemma ThirdRun(x: string)
    ensures var s := L.Run(L.Init(2), Reuse(x));
            && L.Step(s, L.Client(Timer(0))).ums == TimedOutFirst(x)
            && L.Run(s, ThirdTime(x)).ums == ReusedTwice(x)
  {
    ReuseRun(x);
    var s := L.Run(L.Init(2), Reuse(x));
    var s1 := L.Step(s, L.Client(Timer(0)));
    assert s1.ums == TimedOutFirst(x);
    SendFresh(s1.ums, x);
    LP.ThreeSteps(s, L.Client(Timer(0)), L.Client(Send(x, true)), L.Client(Advance(1)));
  }

  /** The timer of a request orphaned by a stop takes the listener of a later request with its id,
      which then stays unanswered although its response arrives at both subscribed handlers. */
  lemma StopOrphanTakesListener(x: string, body: string)
    ensures var s := L.Run(L.Init(2), Reuse(x));
            && TakesForeign(s.ums, Timer(0), 0, 1)
            && IsUnsettled(L.Run(s, [L.Client(Timer(0)), L.Client(Receive(Message(Some(x), None, body)))]).ums, 1)
  {
    ReuseRun(x);
    ThirdRun(x);
    var s, msg := L.Run(L.Init(2), Reuse(x)), Message(Some(x), None, body);
    assert Listener(1, true) in ListenersOf(s.ums.responses, x);
    assert Step(s.ums, Timer(0)) == TimedOutFirst(x);
    LP.ThreeSteps(s, L.Client(Timer(0)), L.Client(Receive(msg)), L.LinkLost);
    Unheard(TimedOutFirst(x), msg);
  }

  lemma Unheard(s: State, msg: Incoming)
    requires IsResponse(msg) && s.responses == map[] && s.subs == 2
    ensures Step(s, Receive(msg)).requests == s.requests
  {
    EmitResponseIs(s, msg.reqId.value, msg);
    var s1 := HandleOne(s, msg);
    EmitResponseIs(s1, msg.reqId.value, msg);
    assert HandleBy(s1, msg, 1).requests == s.requests;
    assert HandleBy(s, msg, 2).requests == s.requests;
  }

  /** A timer can take a listener that is not its own although no stop orphaned its own request:
      here request 1 lost its listener to request 0, not to the stop. */
  lemma TheftWithoutStop(x: string)
    ensures var s := L.Run(L.Run(L.Init(2), Reuse(x)), ThirdTime(x)).ums;
            TakesForeign(s, Timer(1), 1, 2) && 1 !in s.stopOrphans && Tainted(s, x)
  {
    ThirdRun(x);
    var s := ReusedTwice(x);
    assert Listener(2, true) in ListenersOf(s.responses, x);
    assert 0 in s.stopOrphans && s.requests[0].id == x;
  }
}
