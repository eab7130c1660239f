/** What the lifecycle guarantees over every run: one refresh activity, what is present between start and stop,
    what is gone after a stop. */
module LifecycleProofs {
  import opened Wrappers
  import E = EventEmitter
  import U = UmsModel
  import P = UmsProofs
  import opened LifecycleModel

  // ---------- the invariant ----------

  /** The stored handle names the only live refresh timer; a tick that is still awaiting has none beside it. */
  ghost predicate OneRefresh(s: State) {
    && (s.refreshTask.Some? ==> s.refreshTask.value < s.nextTimer)
    && (s.timers == {} || (s.refreshTask.Some? && s.timers == {s.refreshTask.value}))
    && (Ticking(s.pc) || s.pc == StartResolving || s.pc == StartRefreshingSession ==> s.timers == {})
    && (s.pc in {LoggingIn, ResolvingService, Connecting} ==> s.timers != {})
  }

  /** While stopped there is no refresh and no directory, and no hook is pending that could bring them back. */
  ghost predicate StoppedClean(s: State) {
    && (Starting(s.pc) || Refreshing(s.pc) ==> s.ums.started)
    && (Stopping(s.pc) ==> !s.ums.started)
    && (!s.ums.started ==> s.timers == {} && s.refreshTask == None && s.domains == None)
  }

  ghost predicate UpComplete(s: State) {
    s.up ==>
      s.ums.started && (s.pc == Idle || Refreshing(s.pc)) && s.domains.Some? && s.session.Some? && s.ums.subs >= 1
  }

  /** Domains are there from the first successful resolution of a start on. */
  ghost predicate StartProgress(s: State) {
    && (s.pc in {StartRefreshingSession, LoggingIn, ResolvingService, Connecting} ==> s.domains.Some?)
    && (s.pc in {ResolvingService, Connecting, LoggingOut} ==> s.session.Some?)
    && (s.pc == Disconnecting ==> s.session == None && !s.linked)
  }

  ghost predicate DownComplete(s: State) {
    s.down ==> !s.ums.started && s.pc == Idle && s.session == None && !s.linked
               && s.ums.responses == map[] && s.ums.notifications == map[]
  }

  ghost predicate Inv(s: State) {
    P.Inv(s.ums) && Machine(s)
  }

  ghost predicate Machine(s: State) {
    OneRefresh(s) && StoppedClean(s) && UpComplete(s) && StartProgress(s) && DownComplete(s)
  }

  // ---------- preservation ----------

  /** What a lifecycle step is for the request tables. */
  function Projected(s: State, e: Event): seq<U.Event> {
    if !Enabled(s, e) then []
    else match e
      case Start => [U.Started]
      case Stop => [U.Stopped]
      case Connected(ok) => if ok then [U.Subscribe] else []
      case Disconnected(ok) => if ok then [U.Cleanup] else []
      case Client(ce) => [ce]
      case _ => []
  }

  lemma StepProjects(s: State, e: Event)
    ensures Step(s, e).ums == U.Run(s.ums, Projected(s, e))
  {
    var es := Projected(s, e);
    if es != [] {
      assert es == [es[0]] && es[1..] == [];
      assert U.Run(s.ums, es) == U.Run(U.Step(s.ums, es[0]), []);
    }
  }

  /** With empty tables and the client stopped, its own events register nothing. */
  lemma StoppedStaysEmpty(ums: U.State, ce: U.Event)
    requires !ums.started && ums.responses == map[] && ums.notifications == map[] && Independent(ce)
    ensures U.Step(ums, ce).responses == map[] && U.Step(ums, ce).notifications == map[] && !U.Step(ums, ce).started
  {
    match ce
    case Send(id, accepted) =>
      assert E.SetListeners(U.Register(ums, id).responses, id, []) == map[];
    case SendFails(_) =>
    case Timer(_) =>
    case Advance(_) =>
    case Receive(msg) => EmptyHandle(ums, msg, ums.subs);
    case OnNotification(_, _) =>
  }

  lemma EmptyEmit(event: string)
    ensures E.AfterEmit(map[], event) == map[]
  {
    assert E.Persisting([]) == [];
  }

  lemma {:induction false} EmptyHandle(ums: U.State, msg: U.Incoming, k: nat)
    requires ums.responses == map[] && ums.notifications == map[]
    ensures U.HandleBy(ums, msg, k) == ums.(thrown := U.HandleBy(ums, msg, k).thrown)
    decreases k
  {
    if k > 0 {
      var s1 := U.HandleOne(ums, msg);
      assert E.Functions([]) == [] && U.Deliveries([], msg) == [];
      if U.IsResponse(msg) { EmptyEmit(msg.reqId.value); }
      if U.IsNotification(msg) { EmptyEmit(msg.kind.value); }
      assert s1 == ums.(thrown := s1.thrown);
      if s1.thrown <= ums.thrown { EmptyHandle(s1, msg, k - 1); }
    }
  }

  /** A client event of its own touches neither the state machine nor the subscriptions. */
  lemma IndependentKeeps(ums: U.State, ce: U.Event)
    requires Independent(ce)
    ensures U.Step(ums, ce).started == ums.started && U.Step(ums, ce).subs == ums.subs
  {
    if ce.Receive? { HandleKeepsFlags(ums, ce.msg, ums.subs); }
  }

  lemma {:induction false} HandleKeepsFlags(ums: U.State, msg: U.Incoming, k: nat)
    ensures U.HandleBy(ums, msg, k).started == ums.started && U.HandleBy(ums, msg, k).subs == ums.subs
    decreases k
  {
    if k > 0 {
      var s1 := U.HandleOne(ums, msg);
      if U.IsResponse(msg) && E.Emit(ums.responses, msg.reqId.value).Called? {
        SettleAllKeepsFlags(ums.(responses := E.AfterEmit(ums.responses, msg.reqId.value)),
                            E.Emit(ums.responses, msg.reqId.value).fns, U.Resolved(msg));
      }
      if s1.thrown <= ums.thrown { HandleKeepsFlags(s1, msg, k - 1); }
    }
  }

  lemma {:induction false} SettleAllKeepsFlags(ums: U.State, fns: seq<nat>, status: U.Status)
    ensures U.SettleAll(ums, fns, status).started == ums.started && U.SettleAll(ums, fns, status).subs == ums.subs
    decreases |fns|
  {
    if fns != [] { SettleAllKeepsFlags(U.Settle(ums, fns[0], status), fns[1..], status); }
  }

  lemma ClientMachine(s: State, ce: U.Event)
    requires Machine(s) && Independent(ce)
    ensures Machine(s.(ums := U.Step(s.ums, ce)))
  {
    IndependentKeeps(s.ums, ce);
    if s.down { StoppedStaysEmpty(s.ums, ce); }
  }

  /** The four steps of the state machine that the request tables see. */
  lemma TransitionMachine(s: State, e: Event)
    requires Machine(s) && Enabled(s, e) && (e.Start? || e.Stop? || e.Connected? || e.Disconnected?)
    ensures Machine(Do(s, e))
  {
    match e
    case Start => assert U.Step(s.ums, U.Started) == s.ums.(started := true);
    case Stop => assert U.Step(s.ums, U.Stopped) == s.ums.(started := false);
    case Connected(ok) => assert U.Step(s.ums, U.Subscribe) == s.ums.(subs := s.ums.subs + 1);
    case Disconnected(ok) => assert U.Step(s.ums, U.Cleanup) == U.CleanUp(s.ums);
  }

  lemma AwaitMachine(s: State, e: Event)
    requires Machine(s) && Enabled(s, e)
    requires !(e.Start? || e.Stop? || e.Connected? || e.Disconnected? || e.Client?)
    ensures Machine(Do(s, e)) && Do(s, e).ums == s.ums
  {
    if e.Refresh? || e.Tick? || e.Resolved? || e.SessionRefreshed? { RefreshMachine(s, e); }
  }

  lemma RefreshMachine(s: State, e: Event)
    requires Machine(s) && Enabled(s, e) && (e.Refresh? || e.Tick? || e.Resolved? || e.SessionRefreshed?)
    ensures Machine(Do(s, e)) && Do(s, e).ums == s.ums
  {
    if e.Tick? { assert s.timers - {e.handle} == {}; }
  }

  lemma StepInv(s: State, e: Event)
    requires Inv(s)
    ensures Inv(Step(s, e))
  {
    StepProjects(s, e);
    P.RunInv(s.ums, Projected(s, e));
    if Enabled(s, e) {
      if e.Client? { ClientMachine(s, e.ce); }
      else if e.Start? || e.Stop? || e.Connected? || e.Disconnected? { TransitionMachine(s, e); }
      else { AwaitMachine(s, e); }
    }
  }

  lemma {:induction false} RunInv(s: State, es: seq<Event>)
    requires Inv(s)
    ensures Inv(Run(s, es))
    decreases |es|
  {
    if es != [] {
      StepInv(s, es[0]);
      RunInv(Step(s, es[0]), es[1..]);
    }
  }

  // ---------- the main results ----------

  /** Live refresh timers plus ticks that are still awaiting. */
  function RefreshActivities(s: State): nat {
    |s.timers| + if Ticking(s.pc) then 1 else 0
  }

  /** In every reachable state there is at most one refresh activity, none while the client is stopped,
      and a live timer is the one the handle names. */
  lemma OneRefreshActivity(timeout: nat, es: seq<Event>)
    ensures var s := Run(Init(timeout), es);
            && RefreshActivities(s) <= 1
            && (!s.ums.started ==> RefreshActivities(s) == 0)
            && (forall h :: h in s.timers ==> s.refreshTask == Some(h))
  {
    RunInv(Init(timeout), es);
    var s := Run(Init(timeout), es);
    if s.timers != {} { assert |s.timers| == 1; }
  }

  ghost predicate NoStop(es: seq<Event>) {
    forall e :: e in es ==> !e.Stop?
  }

  ghost predicate NoStart(es: seq<Event>) {
    forall e :: e in es ==> !e.Start?
  }

  /** From a successful start on, in every state up to the next stop, the client is started, has its domains and
      its session and listens to the transport, through failed refreshes and lost connections. */
  lemma PresentWhileUp(timeout: nat, before: seq<Event>, es: seq<Event>)
    requires Run(Init(timeout), before).pc == Connecting && NoStop(es)
    ensures var s := Run(Step(Run(Init(timeout), before), Connected(true)), es);
            s.ums.started && s.domains.Some? && s.session.Some? && s.ums.subs >= 1
  {
    var s := Run(Init(timeout), before);
    RunInv(Init(timeout), before);
    StepInv(s, Connected(true));
    StaysUp(Step(s, Connected(true)), es);
    RunInv(Step(s, Connected(true)), es);
  }

  lemma {:induction false} StaysUp(s: State, es: seq<Event>)
    requires Inv(s) && s.up && NoStop(es)
    ensures Run(s, es).up
    decreases |es|
  {
    if es != [] {
      StepInv(s, es[0]);
      StaysUp(Step(s, es[0]), es[1..]);
    }
  }

  /** From a successful stop on, until the next start, nothing of the session is left: no domains, session, refresh
      timer or connection, empty listener tables; and nothing begun earlier brings any of it back. */
  lemma GoneAfterStop(timeout: nat, before: seq<Event>, es: seq<Event>)
    requires Run(Init(timeout), before).pc == Disconnecting && NoStart(es)
    ensures var s := Run(Step(Run(Init(timeout), before), Disconnected(true)), es);
            && !s.ums.started && s.pc == Idle && s.domains == None && s.session == None && RefreshActivities(s) == 0
            && !s.linked && s.ums.responses == map[] && s.ums.notifications == map[]
  {
    var s := Run(Init(timeout), before);
    RunInv(Init(timeout), before);
    StepInv(s, Disconnected(true));
    StaysDown(Step(s, Disconnected(true)), es);
    RunInv(Step(s, Disconnected(true)), es);
  }

  lemma {:induction false} StaysDown(s: State, es: seq<Event>)
    requires Inv(s) && s.down && NoStart(es)
    ensures Run(s, es).down
    decreases |es|
  {
    if es != [] {
      StepInv(s, es[0]);
      StaysDown(Step(s, es[0]), es[1..]);
    }
  }

  /** From the moment a stop begins, succeed or fail, the domains stay gone until the next start:
      no refresh can write them back. */
  lemma NoWriteBack(timeout: nat, before: seq<Event>, es: seq<Event>)
    requires Enabled(Run(Init(timeout), before), Stop) && NoStart(es)
    ensures var s := Run(Step(Run(Init(timeout), before), Stop), es);
            !s.ums.started && s.domains == None && RefreshActivities(s) == 0
  {
    var s := Run(Init(timeout), before);
    RunInv(Init(timeout), before);
    StepInv(s, Stop);
    StaysStopped(Step(s, Stop), es);
    RunInv(Step(s, Stop), es);
  }

  lemma {:induction false} StaysStopped(s: State, es: seq<Event>)
    requires Inv(s) && !s.ums.started && NoStart(es)
    ensures !Run(s, es).ums.started
    decreases |es|
  {
    if es != [] {
      StepInv(s, es[0]);
      if es[0].Client? && Enabled(s, es[0]) { IndependentKeeps(s.ums, es[0].ce); }
      StaysStopped(Step(s, es[0]), es[1..]);
    }
  }

  /** Nothing is left that would ever queue a refresh again. */
  ghost predicate RefreshDead(s: State) {
    s.timers == {} && !Ticking(s.pc) && !Starting(s.pc)
  }

  /** One failed periodic refresh ends periodic refreshing for good: manual refreshes do not bring it back,
      only another start does. */
  lemma FailedTickEndsRefreshing(timeout: nat, before: seq<Event>, e: Event, es: seq<Event>)
    requires Ticking(Run(Init(timeout), before).pc) && NoStart(es)
    requires Enabled(Run(Init(timeout), before), e) && (e == Resolved(None) || e == SessionRefreshed(false))
    ensures RefreshActivities(Run(Step(Run(Init(timeout), before), e), es)) == 0
  {
    RunInv(Init(timeout), before);
    StaysDead(Step(Run(Init(timeout), before), e), es);
  }

  lemma DeadStep(s: State, e: Event)
    requires RefreshDead(s) && !e.Start?
    ensures RefreshDead(Step(s, e))
  {
  }

  lemma {:induction false} StaysDead(s: State, es: seq<Event>)
    requires RefreshDead(s) && NoStart(es)
    ensures RefreshDead(Run(s, es))
    decreases |es|
  {
    if es != [] {
      DeadStep(s, es[0]);
      StaysDead(Step(s, es[0]), es[1..]);
    }
  }

  /** Event `e` fails the refresh that a tick is waiting for. */
  predicate FailsTick(s: State, e: Event) {
    Ticking(s.pc) && Enabled(s, e) && (e == Resolved(None) || e == SessionRefreshed(false))
  }

  ghost predicate NoFailedTick(s: State, es: seq<Event>)
    decreases |es|
  {
    es == [] || (!FailsTick(s, es[0]) && NoFailedTick(Step(s, es[0]), es[1..]))
  }

  predicate GoesOn(s: State) {
    s.timers != {} || Ticking(s.pc)
  }

  lemma GoesOnIsOne(s: State)
    requires OneRefresh(s)
    ensures RefreshActivities(s) == if GoesOn(s) then 1 else 0
  {
    if s.timers != {} { assert s.timers == {s.refreshTask.value}; }
  }

  lemma GoesOnStep(s: State, e: Event)
    requires Machine(s) && GoesOn(s) && !e.Stop? && !FailsTick(s, e)
    ensures GoesOn(Step(s, e))
  {
    if Enabled(s, e) && e.Tick? && !(s.pc == Idle && s.ums.started) {
      assert s.nextTimer in Step(s, e).timers;
    }
  }

  lemma {:induction false} KeepsGoing(s: State, es: seq<Event>)
    requires Inv(s) && GoesOn(s) && NoStop(es) && NoFailedTick(s, es)
    ensures GoesOn(Run(s, es))
    decreases |es|
  {
    if es != [] {
      GoesOnStep(s, es[0]);
      StepInv(s, es[0]);
      KeepsGoing(Step(s, es[0]), es[1..]);
    }
  }

  /** The other half: once a start has got past its refresh, even if it fails later, there is exactly one refresh
      activity in every state up to the next stop, for as long as no periodic refresh fails. */
  lemma RefreshKeepsGoing(timeout: nat, before: seq<Event>, es: seq<Event>)
    requires Run(Init(timeout), before).pc in {LoggingIn, ResolvingService, Connecting}
    requires NoStop(es) && NoFailedTick(Run(Init(timeout), before), es)
    ensures RefreshActivities(Run(Run(Init(timeout), before), es)) == 1
  {
    var s := Run(Init(timeout), before);
    RunInv(Init(timeout), before);
    KeepsGoing(s, es);
    RunInv(s, es);
    GoesOnIsOne(Run(s, es));
  }

  // ---------- what a start comes to ----------

  lemma OneStep(s: State, e: Event, rest: seq<Event>)
    ensures Run(s, [e] + rest) == Run(Step(s, e), rest)
  {
    assert ([e] + rest)[1..] == rest;
  }

  lemma ThreeSteps(s: State, a: Event, b: Event, c: Event)
    ensures Run(s, [a]) == Step(s, a) && Run(s, [a, b]) == Step(Step(s, a), b)
    ensures Run(s, [a, b, c]) == Step(Step(Step(s, a), b), c)
  {
    OneStep(s, a, []);
    OneStep(s, a, [b]);
    OneStep(s, a, [b, c]);
    OneStep(Step(s, a), b, []);
    OneStep(Step(s, a), b, [c]);
    OneStep(Step(Step(s, a), b), c, []);
    assert [a] + [b, c] == [a, b, c] && [a] + [b] == [a, b] && [b] + [c] == [b, c];
    assert [a] + [] == [a] && [b] + [] == [b] && [c] + [] == [c];
  }

  lemma {:induction false} RunAppend(s: State, a: seq<Event>, b: seq<Event>)
    ensures Run(s, a + b) == Run(Run(s, a), b)
    decreases |a|
  {
    if a == [] {
      assert a + b == b;
    } else {
      assert (a + b)[1..] == a[1..] + b;
      RunAppend(Step(s, a[0]), a[1..], b);
    }
  }

  /** The awaits of the refresh that a start begins with; the session is refreshed only if a failed logout kept one. */
  function RefreshPart(domains: Option<nat>, refreshed: bool): seq<Event> {
    [Start, Resolved(domains), SessionRefreshed(refreshed)]
  }

  function ConnectPart(session: Option<nat>, reach: Reach, connected: bool): seq<Event> {
    [LoggedIn(session), ServiceResolved(reach), Connected(connected)]
  }

  /** A start with the outcomes of all its awaits; those that it does not come to change nothing. */
  function StartEvents(domains: Option<nat>, refreshed: bool, session: Option<nat>, reach: Reach, connected: bool)
    : seq<Event>
  {
    RefreshPart(domains, refreshed) + ConnectPart(session, reach, connected)
  }

  /** A started client, as a start leaves it after its refresh. */
  function AfterRefresh(s: State, domains: Option<nat>, refreshed: bool): State {
    var s1 := s.(ums := s.ums.(started := true), down := false, domains := domains, pc := Idle);
    if refreshed
    then s1.(pc := LoggingIn, refreshTask := Some(s.nextTimer), timers := {s.nextTimer}, nextTimer := s.nextTimer + 1)
    else s1
  }

  function AfterConnect(s: State, session: Option<nat>, reach: Reach, connected: bool): State {
    if session == None then s.(pc := Idle)
    else if !reach.SocketMade?
    then s.(pc := Idle, session := session, linked := s.linked && !(reach.NoSocket? && !reach.kept))
    else if !connected then s.(pc := Idle, session := session, linked := true)
    else s.(pc := Idle, session := session, linked := true, up := true, ums := s.ums.(subs := s.ums.subs + 1))
  }

  lemma RefreshSteps(s: State, domains: Option<nat>, refreshed: bool)
    requires s.pc == StartResolving && s.ums.started && s.timers == {} && s.domains == None && !s.down
    ensures Step(Step(s, Resolved(domains)), SessionRefreshed(refreshed))
            == AfterRefresh(s, domains, domains.Some? && (s.session == None || refreshed))
  {
    assert s.timers + {s.nextTimer} == {s.nextTimer};
  }

  lemma StartRefreshes(s: State, domains: Option<nat>, refreshed: bool)
    requires Machine(s) && Enabled(s, Start)
    ensures Run(s, RefreshPart(domains, refreshed))
            == AfterRefresh(s, domains, domains.Some? && (s.session == None || refreshed))
  {
    var s1 := Step(s, Start);
    assert s1 == s.(ums := s.ums.(started := true), pc := StartResolving, down := false);
    RefreshSteps(s1, domains, refreshed);
    assert AfterRefresh(s1, domains, domains.Some? && (s.session == None || refreshed))
           == AfterRefresh(s, domains, domains.Some? && (s.session == None || refreshed));
    ThreeSteps(s, Start, Resolved(domains), SessionRefreshed(refreshed));
  }

  lemma StartConnects(s: State, session: Option<nat>, reach: Reach, connected: bool)
    requires s.ums.started && s.pc == LoggingIn
    ensures Run(s, ConnectPart(session, reach, connected))
            == AfterConnect(s, session, reach, connected)
  {
    var s1 := Step(s, LoggedIn(session));
    ThreeSteps(s, LoggedIn(session), ServiceResolved(reach), Connected(connected));
    if session == None {
      assert s1 == s.(pc := Idle);
    } else {
      assert s1 == s.(session := session, pc := ResolvingService);
      ConnectSteps(s1, reach, connected);
    }
  }

  lemma ConnectSteps(s: State, reach: Reach, connected: bool)
    requires s.ums.started && s.pc == ResolvingService
    ensures Step(Step(s, ServiceResolved(reach)), Connected(connected))
            == if !reach.SocketMade? then s.(pc := Idle, linked := s.linked && !(reach.NoSocket? && !reach.kept))
               else if !connected then s.(pc := Idle, linked := true)
               else s.(pc := Idle, linked := true, up := true, ums := s.ums.(subs := s.ums.subs + 1))
  {
    var s2 := Step(s, ServiceResolved(reach));
    if reach.SocketMade? {
      assert U.Step(s2.ums, U.Subscribe) == s2.ums.(subs := s2.ums.subs + 1);
    } else {
      assert s2.pc == Idle;
    }
  }

  lemma StartEnded(s: State, session: Option<nat>, reach: Reach, connected: bool)
    requires s.pc == Idle
    ensures Run(s, ConnectPart(session, reach, connected)) == s
  {
    ThreeSteps(s, LoggedIn(session), ServiceResolved(reach), Connected(connected));
  }

  /** Main result: what any start leaves, for every outcome of each of its awaits. The client is started and idle in any
      case. It has its domains exactly if they were resolved; it has a session exactly if its refresh and its login
      succeeded, or a failed logout had kept one; it refreshes periodically exactly if its refresh succeeded; it is
      complete, with one more message handler, exactly if everything succeeded. */
  lemma StartOutcome(s: State, domains: Option<nat>, refreshed: bool, session: Option<nat>, reach: Reach,
                     connected: bool)
    requires Inv(s) && Enabled(s, Start)
    ensures var s' := Run(s, StartEvents(domains, refreshed, session, reach, connected));
            var past := domains.Some? && (s.session == None || refreshed);
            && s'.ums.started && s'.pc == Idle && !s'.down
            && s'.domains == domains
            && s'.session == (if past && session.Some? then session else s.session)
            && (s'.session.Some? <==> (past && session.Some?) || s.session.Some?)
            && RefreshActivities(s') == (if past then 1 else 0)
            && (s'.linked <==> if past && session.Some?
                               then reach.SocketMade? || (s.linked && (reach.NoSocket? ==> reach.kept)) else s.linked)
            && (s'.up <==> past && session.Some? && reach.SocketMade? && connected)
            && s'.ums == s.ums.(started := true, subs := s.ums.subs + if s'.up then 1 else 0)
  {
    StartRefreshes(s, domains, refreshed);
    var s1 := Run(s, RefreshPart(domains, refreshed));
    RunAppend(s, RefreshPart(domains, refreshed), ConnectPart(session, reach, connected));
    if s1.pc == LoggingIn {
      StartConnects(s1, session, reach, connected);
    } else {
      StartEnded(s1, session, reach, connected);
    }
  }

  /** A started client without session gets none before it is stopped, whatever is refreshed: the documented promise
      that a started client has its session stays broken for as long as it is started. */
  lemma {:induction false} NoSessionUntilStop(s: State, es: seq<Event>)
    requires Inv(s) && s.ums.started && (s.pc == Idle || Refreshing(s.pc)) && s.session == None && NoStop(es)
    ensures var s' := Run(s, es); s'.ums.started && s'.session == None && !s'.up
    decreases |es|
  {
    if es != [] {
      var s1 := Step(s, es[0]);
      StepInv(s, es[0]);
      if es[0].Client? && Enabled(s, es[0]) { IndependentKeeps(s.ums, es[0].ce); }
      NoSessionUntilStop(s1, es[1..]);
    }
  }

  // ---------- on to a completed start ----------

  /** The next event on the way to a completed start, with no listener removed: a started client is stopped first, by a
      stop whose logout or disconnect fails. */
  function Onward(s: State): Event {
    match s.pc
    case Idle => if s.ums.started then Stop else Start
    case StartResolving => Resolved(Some(0))
    case StartRefreshingSession => SessionRefreshed(true)
    case LoggingIn => LoggedIn(Some(0))
    case ResolvingService => ServiceResolved(SocketMade)
    case Connecting => Connected(true)
    case RefreshResolving(_) => Resolved(None)
    case RefreshingSession(_) => SessionRefreshed(false)
    case LoggingOut => LoggedOut(false)
    case Disconnecting => Disconnected(false)
  }

  function Rank(s: State): nat {
    match s.pc
    case Idle => if s.ums.started then 8 else 6
    case StartResolving => 5
    case StartRefreshingSession => 4
    case LoggingIn => 3
    case ResolvingService => 2
    case Connecting => 1
    case RefreshResolving(_) => 9
    case RefreshingSession(_) => 9
    case LoggingOut => 7
    case Disconnecting => 7
  }

  lemma GoesOnward(s: State)
    requires Machine(s)
    ensures var s' := Step(s, Onward(s));
            && s'.ums.requests == s.ums.requests && s'.ums.responses == s.ums.responses
            && if s.pc == Connecting then s'.ums.subs == s.ums.subs + 1
               else s'.ums.subs == s.ums.subs && Rank(s') < Rank(s)
  {
  }

  /** From every state of the lifecycle a start can still be completed, with all requests and listeners left as they
      are. */
  lemma {:induction false} CanCompleteStart(s: State) returns (es: seq<Event>)
    requires Inv(s)
    ensures forall e :: e in es ==> !e.Client?
    ensures var s' := Run(s, es);
            && s'.ums.requests == s.ums.requests && s'.ums.responses == s.ums.responses
            && s'.ums.subs == s.ums.subs + 1 && Inv(s')
    decreases Rank(s)
  {
    var e, s1 := Onward(s), Step(s, Onward(s));
    GoesOnward(s);
    StepInv(s, e);
    if s.pc == Connecting {
      es := [e];
      OneStep(s, e, []);
      assert [e] + [] == [e];
    } else {
      var rest := CanCompleteStart(s1);
      es := [e] + rest;
      OneStep(s, e, rest);
    }
  }

  // ---------- starts and stops that succeed ----------

  /** The events of a start in which every await succeeds, of a client without session. */
  function GoodStart(domains: nat, session: nat): seq<Event> {
    [Start, Resolved(Some(domains))] + ConnectPart(Some(session), SocketMade, true)
  }

  function GoodStop(): seq<Event> {
    [Stop, LoggedOut(true), Disconnected(true)]
  }

  /** A stopped client without session starts if every await succeeds, with what the awaits returned. */
  lemma StartSucceeds(s: State, domains: nat, session: nat)
    requires Inv(s) && Enabled(s, Start) && s.session == None
    ensures Run(s, GoodStart(domains, session))
            == AfterConnect(AfterRefresh(s, Some(domains), true), Some(session), SocketMade, true)
    ensures var s' := Run(s, GoodStart(domains, session));
            && s'.up && s'.pc == Idle && s'.ums.started && s'.linked
            && s'.domains == Some(domains) && s'.session == Some(session)
            && s'.ums.subs == s.ums.subs + 1 && RefreshActivities(s') == 1
  {
    var a, b := [Start, Resolved(Some(domains))], ConnectPart(Some(session), SocketMade, true);
    StartRefreshes(s, Some(domains), true);
    ThreeSteps(s, Start, Resolved(Some(domains)), SessionRefreshed(true));
    assert Run(s, a) == AfterRefresh(s, Some(domains), true) by {
      assert Run(s, a).pc == LoggingIn;
    }
    RunAppend(s, a, b);
    StartConnects(Run(s, a), Some(session), SocketMade, true);
  }

  /** A manual refresh of a complete client renews the directory, is not over before the session is refreshed too,
      and touches nothing else. */
  lemma RefreshSucceeds(s: State, domains: nat)
    requires Machine(s) && s.up && s.pc == Idle
    ensures Run(s, [Refresh, Resolved(Some(domains))]).pc == RefreshingSession(Manual)
    ensures Run(s, [Refresh, Resolved(Some(domains)), SessionRefreshed(true)]) == s.(domains := Some(domains))
  {
    var r2 := Step(Step(s, Refresh), Resolved(Some(domains)));
    assert r2 == s.(domains := Some(domains), pc := RefreshingSession(Manual));
    ThreeSteps(s, Refresh, Resolved(Some(domains)), SessionRefreshed(true));
  }

  /** A stop of a complete client takes a logout, for which the session is kept, and a disconnect; then it is down. */
  lemma StopSucceeds(s: State)
    requires Machine(s) && s.up && s.pc == Idle
    ensures Run(s, [Stop]).session == s.session && !Run(s, [Stop, LoggedOut(true)]).down
    ensures Run(s, GoodStop()).down
    ensures Run(s, GoodStop())
            == s.(ums := U.CleanUp(s.ums.(started := false)), pc := Idle, domains := None, session := None,
                  refreshTask := None, timers := {}, linked := false, up := false, down := true)
  {
    var t1 := Step(s, Stop);
    assert t1.pc == LoggingOut && t1.session == s.session && !t1.down;
    var t2 := Step(t1, LoggedOut(true));
    assert t2 == BeginDisconnect(t1);
    assert U.Step(t2.ums, U.Cleanup) == U.CleanUp(t2.ums);
    assert t1.timers == {};
    ThreeSteps(s, Stop, LoggedOut(true), Disconnected(true));
  }

  /** The starts that complete in a run. */
  function CompletedStarts(s: State, es: seq<Event>): nat
    decreases |es|
  {
    if es == [] then 0
    else (if es[0] == Connected(true) && Enabled(s, es[0]) then 1 else 0) + CompletedStarts(Step(s, es[0]), es[1..])
  }

  lemma SubscriptionStep(s: State, e: Event)
    requires Machine(s)
    ensures Step(s, e).ums.subs == s.ums.subs + if e == Connected(true) && Enabled(s, e) then 1 else 0
  {
    if e.Client? && Enabled(s, e) { IndependentKeeps(s.ums, e.ce); }
  }

  /** The number of message handlers is the number of starts that have completed. */
  lemma {:induction false} SubscriptionsAreStarts(s: State, es: seq<Event>)
    requires Inv(s)
    ensures Run(s, es).ums.subs == s.ums.subs + CompletedStarts(s, es)
    decreases |es|
  {
    if es != [] {
      StepInv(s, es[0]);
      SubscriptionStep(s, es[0]);
      SubscriptionsAreStarts(Step(s, es[0]), es[1..]);
    }
  }

  lemma NotificationStep(s: State, msg: U.Incoming)
    requires P.Inv(s.ums) && U.IsNotification(msg)
    ensures var s', ls := Step(s, Client(U.Receive(msg))), E.ListenersOf(s.ums.notifications, msg.kind.value);
            && s' == s.(ums := s.ums.(delivered := s'.ums.delivered, thrown := s'.ums.thrown))
            && s'.ums.delivered == s.ums.delivered + P.Repeat(U.Deliveries(E.Functions(ls), msg), s.ums.subs)
  {
    P.NotificationOncePerSubscription(s.ums, msg, s.ums.subs);
    assert Step(s, Client(U.Receive(msg))) == s.(ums := U.HandleBy(s.ums, msg, s.ums.subs));
  }

  /** In every reachable state a notification reaches each of its listeners exactly as often as starts have completed,
      stops in between included, and changes nothing else of the client. */
  lemma NotificationPerStart(timeout: nat, es: seq<Event>, msg: U.Incoming)
    requires U.IsNotification(msg)
    ensures var s, k := Run(Init(timeout), es), CompletedStarts(Init(timeout), es);
            var s', ls := Step(s, Client(U.Receive(msg))), E.ListenersOf(s.ums.notifications, msg.kind.value);
            && s' == s.(ums := s.ums.(delivered := s'.ums.delivered, thrown := s'.ums.thrown))
            && s'.ums.delivered == s.ums.delivered + P.Repeat(U.Deliveries(E.Functions(ls), msg), k)
  {
    RunInv(Init(timeout), es);
    SubscriptionsAreStarts(Init(timeout), es);
    NotificationStep(Run(Init(timeout), es), msg);
  }

  /** The shortest such start: its login fails, and the client is started without a session, refreshing periodically;
      it cannot be started again before it is stopped. */
  lemma FailedLoginLeavesStarted(timeout: nat)
    ensures var s := Run(Init(timeout), [Start, Resolved(Some(0)), LoggedIn(None)]);
            && s.ums.started && s.pc == Idle && s.session == None && RefreshActivities(s) == 1
            && !Enabled(s, Start) && Enabled(s, Stop)
            && s == Run(Init(timeout), StartEvents(Some(0), true, None, SocketMade, true))
  {
    var i, a := Init(timeout), [Start, Resolved(Some(0))];
    StartOutcome(i, Some(0), true, None, SocketMade, true);
    StartRefreshes(i, Some(0), true);
    ThreeSteps(i, Start, Resolved(Some(0)), SessionRefreshed(true));
    ThreeSteps(i, Start, Resolved(Some(0)), LoggedIn(None));
    assert Run(i, a).pc == LoggingIn && Run(i, a) == AfterRefresh(i, Some(0), true);
    RunAppend(i, RefreshPart(Some(0), true), ConnectPart(None, SocketMade, true));
    StartConnects(Run(i, a), None, SocketMade, true);
  }

  // ---------- the client's runs ----------

  function Projection(s: State, es: seq<Event>): seq<U.Event>
    decreases |es|
  {
    if es == [] then [] else Projected(s, es[0]) + Projection(Step(s, es[0]), es[1..])
  }

  lemma {:induction false} RunSplits(ums: U.State, a: seq<U.Event>, b: seq<U.Event>)
    ensures U.Run(ums, a + b) == U.Run(U.Run(ums, a), b)
    decreases |a|
  {
    if a == [] {
      assert a + b == b;
    } else {
      assert (a + b)[1..] == a[1..] + b;
      RunSplits(U.Step(ums, a[0]), a[1..], b);
    }
  }

  /** Every run of the lifecycle is, for the request tables, a run of the client model, so what is proved of all
      those runs holds in every lifecycle. */
  lemma {:induction false} LifecycleRefinesClient(s: State, es: seq<Event>)
    ensures Run(s, es).ums == U.Run(s.ums, Projection(s, es))
    decreases |es|
  {
    if es != [] {
      LifecycleRefinesClient(Step(s, es[0]), es[1..]);
      StepProjects(s, es[0]);
      RunSplits(s.ums, Projected(s, es[0]), Projection(Step(s, es[0]), es[1..]));
    }
  }

  /** A request sent in any phase of any lifecycle is settled once the clock has passed its timeout. */
  lemma SettledInEveryLifecycle(timeout: nat, before: seq<Event>, es: seq<Event>, r: nat)
    requires r < |Run(Init(timeout), before).ums.requests|
    requires Run(Run(Init(timeout), before), es).ums.now > Run(Init(timeout), before).ums.now + timeout
    ensures var s := Run(Run(Init(timeout), before), es);
            r < |s.ums.requests| && s.ums.requests[r].status != U.Unsettled
  {
    var s := Run(Init(timeout), before);
    LifecycleRefinesClient(Init(timeout), before);
    LifecycleRefinesClient(s, es);
    P.BoundedSettlement(timeout, Projection(Init(timeout), before), Projection(s, es), []);
  }
}
