/** Requests, responses and notifications of the messaging client: the listener tables, the request
    promises and the timers that are never cancelled. One step is one macrotask with its microtasks. */
module UmsModel {
  import opened Wrappers
  import opened EventEmitter

  // ---------- data ----------

  datatype Incoming = Null | Message(reqId: Option<string>, kind: Option<string>, body: string)

  datatype Reason = InProgress | NotStarted | SendFailed | TimedOut

  /** The promise returned by `sendMessage`. */
  datatype Status = Unsettled | Resolved(res: Incoming) | Rejected(why: Reason)

  /** One call of `sendMessage`; its number is its index and the function its listener calls. */
  datatype Request = Request(id: string, status: Status, due: nat, timer: bool)

  datatype Delivery = Delivery(fn: nat, msg: Incoming)

  datatype State = State(
    timeout: nat,
    now: nat,
    started: bool,
    subs: nat,                  // handlers subscribed to the transport, one per completed start
    responses: Table,
    notifications: Table,
    requests: seq<Request>,
    stopOrphans: set<nat>,      // requests whose listener a stop removed while they were unsettled
    delivered: seq<Delivery>,   // calls of notification listeners
    thrown: nat)                // exceptions out of the message handler

  function Init(timeout: nat): State {
    State(timeout, 0, false, 0, map[], map[], [], {}, [], 0)
  }

  datatype Event =
    | Send(id: string, accepted: bool)   // accepted: the transport did not reject at once
    | SendFails(req: nat)
    | Timer(req: nat)
    | Advance(dt: nat)
    | Receive(msg: Incoming)
    | OnNotification(kind: string, fn: nat)
    | Started
    | Subscribe
    | Stopped
    | Cleanup

  // ---------- settling ----------

  predicate IsUnsettled(s: State, r: nat) {
    r < |s.requests| && s.requests[r].status == Unsettled
  }

  function Settle(s: State, r: nat, status: Status): State {
    if IsUnsettled(s, r) then s.(requests := s.requests[r := s.requests[r].(status := status)]) else s
  }

  /** A rejection settles the promise and removes every listener of the request's id. */
  function Reject(s: State, r: nat, why: Reason): State {
    if IsUnsettled(s, r)
    then Settle(s, r, Rejected(why)).(responses := SetListeners(s.responses, s.requests[r].id, []))
    else s
  }

  /** The new request listens for its id and arms its timer. */
  function Register(s: State, id: string): State {
    s.(requests := s.requests + [Request(id, Unsettled, s.now + s.timeout, true)],
       responses := Append(s.responses, id, Listener(|s.requests|, true)))
  }

  function SendMessage(s: State, id: string, accepted: bool): State {
    if ListenersOf(s.responses, id) != [] then
      s.(requests := s.requests + [Request(id, Rejected(InProgress), s.now, false)])
    else if !s.started then Reject(Register(s, id), |s.requests|, NotStarted)
    else if !accepted then Reject(Register(s, id), |s.requests|, SendFailed)
    else Register(s, id)
  }

  function StopTimer(s: State, r: nat): State
    requires r < |s.requests|
  {
    s.(requests := s.requests[r := s.requests[r].(timer := false)])
  }

  // ---------- receiving ----------

  function SettleAll(s: State, fns: seq<nat>, status: Status): State
    decreases |fns|
  {
    if fns == [] then s else SettleAll(Settle(s, fns[0], status), fns[1..], status)
  }

  function Deliveries(fns: seq<nat>, msg: Incoming): seq<Delivery> {
    seq(|fns|, i requires 0 <= i < |fns| => Delivery(fns[i], msg))
  }

  function EmitResponse(s: State, id: string, msg: Incoming): State {
    match Emit(s.responses, id)
    case Threw => s.(thrown := s.thrown + 1)
    case Called(fns) => SettleAll(s.(responses := AfterEmit(s.responses, id)), fns, Resolved(msg))
  }

  function EmitNotification(s: State, kind: string, msg: Incoming): State {
    match Emit(s.notifications, kind)
    case Threw => s.(thrown := s.thrown + 1)
    case Called(fns) =>
      s.(notifications := AfterEmit(s.notifications, kind), delivered := s.delivered + Deliveries(fns, msg))
  }

  predicate IsResponse(msg: Incoming) {
    msg.Message? && msg.reqId.Some?
  }

  predicate IsNotification(msg: Incoming) {
    msg.Message? && msg.reqId == None && msg.kind.Some? && msg.kind.value != ""
  }

  /** What one subscribed handler does with a message. */
  function HandleOne(s: State, msg: Incoming): State {
    if IsResponse(msg) then EmitResponse(s, msg.reqId.value, msg)
    else if IsNotification(msg) then EmitNotification(s, msg.kind.value, msg)
    else s
  }

  /** `k` handlers in turn; an exception ends the round. */
  function HandleBy(s: State, msg: Incoming, k: nat): State
    decreases k
  {
    if k == 0 then s
    else
      var s1 := HandleOne(s, msg);
      if s1.thrown > s.thrown then s1 else HandleBy(s1, msg, k - 1)
  }

  // ---------- stopping ----------

  predicate Registered(s: State, r: nat) {
    && r < |s.requests|
    && Listener(r, true) in ListenersOf(s.responses, s.requests[r].id)
  }

  function RegisteredUnsettled(s: State): set<nat> {
    set r | 0 <= r < |s.requests| && IsUnsettled(s, r) && Registered(s, r)
  }

  function CleanUp(s: State): State {
    s.(responses := map[], notifications := map[], stopOrphans := s.stopOrphans + RegisteredUnsettled(s))
  }

  // ---------- steps and runs ----------

  /** Time does not pass over a timer that is due. */
  predicate MayAdvance(s: State, dt: nat) {
    forall r :: 0 <= r < |s.requests| && s.requests[r].timer ==> s.now + dt <= s.requests[r].due
  }

  predicate Enabled(s: State, e: Event) {
    match e
    case Send(_, _) => true
    case SendFails(r) => r < |s.requests|
    case Timer(r) => r < |s.requests| && s.requests[r].timer && s.requests[r].due <= s.now
    case Advance(dt) => MayAdvance(s, dt)
    case Receive(_) => true
    case OnNotification(_, _) => s.started
    case Started => true
    case Subscribe => s.started
    case Stopped => true
    case Cleanup => true
  }

  function Do(s: State, e: Event): State
    requires Enabled(s, e)
  {
    match e
    case Send(id, accepted) => SendMessage(s, id, accepted)
    case SendFails(r) => Reject(s, r, SendFailed)
    case Timer(r) => Reject(StopTimer(s, r), r, TimedOut)
    case Advance(dt) => s.(now := s.now + dt)
    case Receive(msg) => HandleBy(s, msg, s.subs)
    case OnNotification(kind, fn) => s.(notifications := Append(s.notifications, kind, Listener(fn, false)))
    case Started => s.(started := true)
    case Subscribe => s.(subs := s.subs + 1)
    case Stopped => s.(started := false)
    case Cleanup => CleanUp(s)
  }

  /** An event that cannot happen in a state leaves it as it is. */
  function Step(s: State, e: Event): State {
    if Enabled(s, e) then Do(s, e) else s
  }

  function Run(s: State, es: seq<Event>): State
    decreases |es|
  {
    if es == [] then s else Run(Step(s, es[0]), es[1..])
  }
}
