/** Start, stop and refresh of the client: CsdsClient, LeClient, TransportClient and UmsClient as one machine.
    A transition changes the state before its hook runs, is refused while another is pending, and a hook that
    fails leaves the new state. `pc` says which await the pending hook is at. */
module LifecycleModel {
  import opened Wrappers
  import U = UmsModel

  /** A refresh is asked for by the user or by the periodic timer. */
  datatype Origin = Manual | ByTick

  datatype Pc =
    | Idle
    | StartResolving | StartRefreshingSession | LoggingIn | ResolvingService | Connecting
    | RefreshResolving(origin: Origin) | RefreshingSession(origin: Origin)
    | LoggingOut | Disconnecting

  datatype State = State(
    ums: U.State,                // `ums.started` is the state of the state machine
    pc: Pc,
    domains: Option<nat>,        // csdsDomains, named by the resolution that produced it
    session: Option<nat>,        // leSession
    refreshTask: Option<nat>,    // the stored timer handle
    timers: set<nat>,            // live refresh timers
    nextTimer: nat,
    linked: bool,                // the transport holds a socket
    up: bool,                    // the last start succeeded and no stop has begun since
    down: bool)                  // the last stop succeeded and no start has begun since

  function Init(timeout: nat): State {
    State(U.Init(timeout), Idle, None, None, None, {}, 0, false, false, false)
  }

  /** How far a start gets behind its login: the service is not resolved; `connect` fails before it makes a socket, with
      the socket of an earlier start, if there is one, kept or dropped by then; or it makes a socket. */
  datatype Reach = Unresolved | NoSocket(kept: bool) | SocketMade

  datatype Event =
    | Start | Stop | Refresh
    | Tick(handle: nat)
    | Resolved(domains: Option<nat>)     // None: the awaited call failed
    | SessionRefreshed(ok: bool)
    | LoggedIn(session: Option<nat>)
    | ServiceResolved(reach: Reach)
    | Connected(ok: bool)
    | LoggedOut(ok: bool)
    | Disconnected(ok: bool)
    | LinkLost
    | Client(ce: U.Event)

  predicate Starting(pc: Pc) {
    pc in {StartResolving, StartRefreshingSession, LoggingIn, ResolvingService, Connecting}
  }

  predicate Refreshing(pc: Pc) {
    pc.RefreshResolving? || pc.RefreshingSession?
  }

  predicate Stopping(pc: Pc) {
    pc == LoggingOut || pc == Disconnecting
  }

  predicate Ticking(pc: Pc) {
    Refreshing(pc) && pc.origin == ByTick
  }

  // ---------- the pieces of the hooks ----------

  function QueueRefreshTask(s: State): State {
    s.(refreshTask := Some(s.nextTimer), timers := s.timers + {s.nextTimer}, nextTimer := s.nextTimer + 1)
  }

  function CsdsOnStop(s: State): State {
    s.(timers := if s.refreshTask.Some? then s.timers - {s.refreshTask.value} else s.timers,
       refreshTask := None, domains := None)
  }

  /** The end of a refresh transition; a tick queues the next one. */
  function RefreshDone(s: State, origin: Origin): State {
    if origin == ByTick then QueueRefreshTask(s.(pc := Idle)) else s.(pc := Idle)
  }

  /** The rest of `onStart` after its refresh. */
  function StartRefreshed(s: State): State {
    QueueRefreshTask(s.(pc := LoggingIn))
  }

  function BeginDisconnect(s: State): State {
    s.(session := None, linked := false, pc := Disconnecting)
  }

  function DoStart(s: State): State {
    s.(ums := U.Step(s.ums, U.Started), pc := StartResolving, down := false)
  }

  function DoStop(s: State): State {
    var s1 := CsdsOnStop(s.(ums := U.Step(s.ums, U.Stopped), up := false));
    if s1.session.Some? then s1.(pc := LoggingOut) else BeginDisconnect(s1)
  }

  function DoTick(s: State, h: nat): State {
    var s1 := s.(timers := s.timers - {h});
    if s1.pc == Idle && s1.ums.started then s1.(pc := RefreshResolving(ByTick)) else QueueRefreshTask(s1)
  }

  function DoResolved(s: State, domains: Option<nat>): State
    requires s.pc == StartResolving || s.pc.RefreshResolving?
  {
    if domains == None then s.(pc := Idle)
    else
      var s1 := s.(domains := domains);
      if s.pc == StartResolving then
        if s.session.Some? then s1.(pc := StartRefreshingSession) else StartRefreshed(s1)
      else
        if s.session.Some? then s1.(pc := RefreshingSession(s.pc.origin)) else RefreshDone(s1, s.pc.origin)
  }

  function DoServiceResolved(s: State, reach: Reach): State {
    match reach
    case Unresolved => s.(pc := Idle)
    case NoSocket(kept) => s.(linked := s.linked && kept, pc := Idle)
    case SocketMade => s.(linked := true, pc := Connecting)
  }

  function DoConnected(s: State, ok: bool): State {
    if ok then s.(ums := U.Step(s.ums, U.Subscribe), pc := Idle, up := true) else s.(pc := Idle)
  }

  function DoDisconnected(s: State, ok: bool): State {
    if ok then s.(ums := U.Step(s.ums, U.Cleanup), pc := Idle, down := true) else s.(pc := Idle)
  }

  // ---------- steps and runs ----------

  predicate Independent(ce: U.Event) {
    !ce.Started? && !ce.Stopped? && !ce.Subscribe? && !ce.Cleanup?
  }

  predicate Enabled(s: State, e: Event) {
    match e
    case Start => s.pc == Idle && !s.ums.started
    case Stop => s.pc == Idle && s.ums.started
    case Refresh => s.pc == Idle && s.ums.started
    case Tick(h) => h in s.timers
    case Resolved(_) => s.pc == StartResolving || s.pc.RefreshResolving?
    case SessionRefreshed(_) => s.pc == StartRefreshingSession || s.pc.RefreshingSession?
    case LoggedIn(_) => s.pc == LoggingIn
    case ServiceResolved(_) => s.pc == ResolvingService
    case Connected(_) => s.pc == Connecting
    case LoggedOut(_) => s.pc == LoggingOut
    case Disconnected(_) => s.pc == Disconnecting
    case LinkLost => true
    case Client(ce) => Independent(ce)
  }

  function Do(s: State, e: Event): State
    requires Enabled(s, e)
  {
    match e
    case Start => DoStart(s)
    case Stop => DoStop(s)
    case Refresh => s.(pc := RefreshResolving(Manual))
    case Tick(h) => DoTick(s, h)
    case Resolved(domains) => DoResolved(s, domains)
    case SessionRefreshed(ok) =>
      if !ok then s.(pc := Idle)
      else if s.pc == StartRefreshingSession then StartRefreshed(s)
      else RefreshDone(s, s.pc.origin)
    case LoggedIn(session) =>
      if session == None then s.(pc := Idle) else s.(session := session, pc := ResolvingService)
    case ServiceResolved(reach) => DoServiceResolved(s, reach)
    case Connected(ok) => DoConnected(s, ok)
    case LoggedOut(ok) => if ok then BeginDisconnect(s) else s.(pc := Idle)
    case Disconnected(ok) => DoDisconnected(s, ok)
    case LinkLost => s.(linked := false)
    case Client(ce) => s.(ums := U.Step(s.ums, ce))
  }

  /** A call that the state machine refuses, or an event that cannot happen, changes nothing. */
  function Step(s: State, e: Event): State {
    if Enabled(s, e) then Do(s, e) else s
  }

  function Run(s: State, es: seq<Event>): State
    decreases |es|
  {
    if es == [] then s else Run(Step(s, es[0]), es[1..])
  }
}
