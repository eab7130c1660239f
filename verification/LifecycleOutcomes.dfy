/** What refreshes and stops leave, for every outcome of their awaits; `LifecycleProofs.StartOutcome` is the same for
    starts. */
module LifecycleOutcomes {
  import opened Wrappers
  import E = EventEmitter
  import U = UmsModel
  import opened LifecycleModel
  import opened LifecycleProofs

  // ---------- the state machine ----------

  /** A transition is refused, and changes nothing, from the wrong state and while another one is pending. */
  lemma TransitionRefused(s: State, e: Event)
    requires e == Start || e == Stop || e == Refresh
    requires s.pc != Idle || (s.ums.started <==> e == Start)
    ensures Step(s, e) == s
  {
  }

  /** Otherwise it changes the state before its hook runs. */
  lemma TransitionBegins(s: State)
    requires s.pc == Idle
    ensures !s.ums.started ==>
              Step(s, Start) == s.(ums := s.ums.(started := true), pc := StartResolving, down := false)
    ensures s.ums.started ==> Step(s, Refresh) == s.(pc := RefreshResolving(Manual))
    ensures s.ums.started ==> !Step(s, Stop).ums.started && Stopping(Step(s, Stop).pc)
  {
  }

  /** A connection that is lost in between is only noticed as such. */
  lemma LinkLostIs(s: State)
    ensures Step(s, LinkLost) == s.(linked := false)
  {
  }

  // ---------- refreshing ----------

  /** Main result. In every reachable state, the directory that a start or a refresh resolves, manual or periodic, with
      session or without, is the one the client has from then on; a resolution that fails leaves the old one. */
  lemma ResolvedStores(timeout: nat, before: seq<Event>, domains: Option<nat>)
    requires var s := Run(Init(timeout), before); s.pc == StartResolving || s.pc.RefreshResolving?
    ensures var s := Run(Init(timeout), before);
            var s' := Step(s, Resolved(domains));
            && s'.domains == (if domains.Some? then domains else s.domains)
            && s'.session == s.session && s'.ums == s.ums && s'.up == s.up && s'.linked == s.linked
            && (domains == None ==> s'.pc == Idle)
            && (domains.Some? && s.session.Some? ==>
                  s'.pc == if s.pc == StartResolving then StartRefreshingSession else RefreshingSession(s.pc.origin))
            && (domains.Some? && s.session == None ==> s'.pc == if s.pc == StartResolving then LoggingIn else Idle)
  {
  }

  /** What any manual refresh of a started client does: the directory is renewed if it was resolved, also when the
      session could not be refreshed afterwards. */
  lemma RefreshOutcome(s: State, domains: Option<nat>, refreshed: bool)
    requires s.pc == Idle && s.ums.started
    ensures Run(s, [Refresh, Resolved(domains), SessionRefreshed(refreshed)])
            == s.(domains := if domains.Some? then domains else s.domains)
  {
    ThreeSteps(s, Refresh, Resolved(domains), SessionRefreshed(refreshed));
    assert Step(s, Refresh) == s.(pc := RefreshResolving(Manual));
  }

  /** Main result: what any periodic refresh of a started client does. If it succeeds, the client has the new directory
      and one new refresh timer; if not, it has no refresh timer any more, and the new directory only if that was
      resolved. Nothing else changes. */
  lemma TickOutcome(s: State, h: nat, domains: Option<nat>, refreshed: bool)
    requires Machine(s) && s.pc == Idle && s.ums.started && h in s.timers
    ensures var good := domains.Some? && (s.session.Some? ==> refreshed);
            Run(s, [Tick(h), Resolved(domains), SessionRefreshed(refreshed)])
            == s.(domains := if domains.Some? then domains else s.domains,
                  timers := if good then {s.nextTimer} else {},
                  refreshTask := if good then Some(s.nextTimer) else s.refreshTask,
                  nextTimer := s.nextTimer + if good then 1 else 0)
  {
    var s1 := s.(timers := {}, pc := RefreshResolving(ByTick));
    assert s.timers - {h} == {};
    assert Step(s, Tick(h)) == s1;
    TickSteps(s1, domains, refreshed);
    ThreeSteps(s, Tick(h), Resolved(domains), SessionRefreshed(refreshed));
  }

  lemma TickSteps(s: State, domains: Option<nat>, refreshed: bool)
    requires s.pc == RefreshResolving(ByTick) && s.timers == {}
    ensures var good := domains.Some? && (s.session.Some? ==> refreshed);
            Step(Step(s, Resolved(domains)), SessionRefreshed(refreshed))
            == s.(domains := if domains.Some? then domains else s.domains, pc := Idle,
                  timers := if good then {s.nextTimer} else {},
                  refreshTask := if good then Some(s.nextTimer) else s.refreshTask,
                  nextTimer := s.nextTimer + if good then 1 else 0)
  {
    assert s.timers + {s.nextTimer} == {s.nextTimer};
  }

  /** A tick that comes while another transition is pending only makes the next timer. */
  lemma BusyTick(s: State, h: nat)
    requires Machine(s) && h in s.timers && s.pc != Idle
    ensures Step(s, Tick(h))
            == s.(timers := {s.nextTimer}, refreshTask := Some(s.nextTimer), nextTimer := s.nextTimer + 1)
  {
    assert s.timers - {h} + {s.nextTimer} == {s.nextTimer};
  }

  // ---------- stopping ----------

  /** The unsettled requests that listen when a stop empties the tables. */
  function Listening(s: State): set<nat> {
    set r | 0 <= r < |s.ums.requests| && s.ums.requests[r].status == U.Unsettled
            && s.ums.requests[r].id in s.ums.responses
            && E.Listener(r, true) in s.ums.responses[s.ums.requests[r].id]
  }

  /** Main result: what any stop leaves, for every outcome of its awaits. The client is stopped, idle, without domains
      and refresh timer in any case. A session is logged out first; if that fails, session, connection and tables stay.
      Otherwise the session and the connection are gone, and both tables are emptied exactly if the disconnect
      succeeds. */
  lemma StopOutcome(s: State, loggedOut: bool, disconnected: bool)
    requires Machine(s) && s.pc == Idle && s.ums.started
    ensures var out := s.session == None || loggedOut;
            var done := out && disconnected;
            Run(s, [Stop, LoggedOut(loggedOut), Disconnected(disconnected)])
            == s.(domains := None, timers := {}, refreshTask := None, up := false,
                  session := if out then None else s.session, linked := s.linked && !out,
                  down := if done then true else s.down,
                  ums := s.ums.(started := false,
                                responses := if done then map[] else s.ums.responses,
                                notifications := if done then map[] else s.ums.notifications,
                                stopOrphans := s.ums.stopOrphans + if done then Listening(s) else {}))
    ensures s.session.Some? ==> Run(s, [Stop]).session == s.session && Run(s, [Stop]).pc == LoggingOut
  {
    var s1 := Step(s, Stop);
    StopBegins(s);
    StopEnds(s1, loggedOut, disconnected);
    ThreeSteps(s, Stop, LoggedOut(loggedOut), Disconnected(disconnected));
  }

  lemma StopBegins(s: State)
    requires Machine(s) && s.pc == Idle && s.ums.started
    ensures Step(s, Stop)
            == s.(ums := s.ums.(started := false), domains := None, timers := {}, refreshTask := None, up := false,
                  session := s.session, linked := s.linked && s.session.Some?,
                  pc := if s.session.Some? then LoggingOut else Disconnecting)
  {
    assert s.refreshTask.Some? ==> s.timers - {s.refreshTask.value} == {};
  }

  lemma StopEnds(s: State, loggedOut: bool, disconnected: bool)
    requires !s.down
    requires (s.pc == LoggingOut && s.session.Some?) || (s.pc == Disconnecting && s.session == None && !s.linked)
    ensures var out := s.session == None || loggedOut;
            var done := out && disconnected;
            Step(Step(s, LoggedOut(loggedOut)), Disconnected(disconnected))
            == s.(pc := Idle, session := if out then None else s.session, linked := s.linked && !out, down := done,
                  ums := s.ums.(responses := if done then map[] else s.ums.responses,
                                notifications := if done then map[] else s.ums.notifications,
                                stopOrphans := s.ums.stopOrphans + if done then Listening(s) else {}))
  {
    assert U.RegisteredUnsettled(s.ums) == Listening(s);
    assert s.ums.stopOrphans + {} == s.ums.stopOrphans;
  }
}
