// The graph child-process supervisor as a state machine. Every callback the
// source registers (message, exit, error, stderr, timers, send failures), every
// promise continuation and every public call is one step; they come in any order.
module HostProtocol {
  import opened RestartLimiter

  datatype Option<+T> = None | Some(value: T)

  datatype Operation =
    Health | Initialize | ReplaceScope | DeleteScope | ReadScopeSnapshot | QueryPaths | CloseChild

  datatype Code =
    | ChildExited | ProtocolInvalid | DeadlineExceeded | ProcessStartFailed
    | IdentityMismatch | CircuitOpen | RequestLimitExceeded | Reported(text: string)

  // How one pending promise was settled, and by which message if it was resolved.
  datatype Settlement = Resolved(generation: nat, operation: Operation) | Rejected(code: Code)

  datatype Pending = Pending(generation: nat, operation: Operation)

  // A start attempt is the promise that launchChild returned.
  datatype Attempt = Starting(generation: nat) | Started(generation: nat) | StartRejected

  datatype Waiter = Waiter(generation: nat, attempt: nat)

  // A call of #request: waiting for readiness (of an attempt, or already ready),
  // registered under a request id, about to run its `finally`, or over.
  datatype CallStatus = Waiting(attempt: Option<nat>) | Registered(request: nat) | Unwinding | Finished

  datatype Call = Call(operation: Operation, counted: bool, status: CallStatus)

  datatype Config = Config(policy: Policy, maxConcurrentRequests: nat)

  // The child and its startup: #generation, #child, #ready, #startPromise,
  // #startupWaiter and #closed, the promises of all start attempts, and what
  // happened to the children so far.
  datatype Startup = Startup(
    generation: nat, child: Option<nat>, ready: bool, closed: bool,
    start: Option<nat>, waiter: Option<Waiter>, attempts: seq<Attempt>,
    launched: set<nat>, identified: set<nat>, exitHandled: set<nat>)

  // #pending, every request that was ever registered, and the calls of resolve
  // and reject that each of them got.
  datatype Requests = Requests(
    pending: map<nat, Pending>, registered: map<nat, Pending>, settled: map<nat, seq<Settlement>>)

  // #inFlightRequests and the calls of #request.
  datatype Calls = Calls(active: map<nat, Call>, inFlight: int)

  // #restartTimes, #circuitOpenUntil and #restartCount.
  datatype Breaker = Breaker(restartTimes: seq<int>, openUntil: int, restartCount: nat)

  datatype Host = Host(
    startup: Startup, requests: Requests, calls: Calls, breaker: Breaker,
    lastFailure: Option<Code>, activated: bool, closing: bool)

  const NewStartup := Startup(0, None, false, false, None, None, [], {}, {}, {})
  const NewHost := Host(NewStartup, Requests(map[], map[], map[]), Calls(map[], 0), Breaker([], 0, 0), None, false, false)

  datatype Message =
    | Malformed
    | StartupError(code: Code)
    | Ready(expected: bool)
    | Response(request: nat, operation: Operation, ok: bool, code: Code, payloadValid: bool)

  datatype Step =
    | Open(now: int, forked: bool)
    | Activate
    | Request(call: nat, operation: Operation, now: int, forked: bool)
    | Continue(call: nat, request: nat, connected: bool, inTime: bool)
    | DeadlineWhileWaiting(call: nat)
    | StartFailed(call: nat)
    | RunFinally(call: nat)
    | Receive(generation: nat, message: Message)
    | Exit(generation: nat)
    | ChildError(generation: nat)
    | StderrFlood(generation: nat)
    | StartupTimer(generation: nat)
    | RequestTimer(request: nat)
    | SendFailed(request: nat)
    | RestartTick(generation: nat, now: int, forked: bool)
    | ClearStart(attempt: nat)
    | CloseBegin
    | CloseAsk(call: nat, request: nat, connected: bool)
    | CloseFinish

  // ----- Settling requests ----------------------------------------------------

  function Settle(q: Requests, request: nat, s: Settlement): Requests
    requires request in q.settled
  {
    q.(pending := q.pending - {request}, settled := q.settled[request := q.settled[request] + [s]])
  }

  function RejectIn(q: Requests, hit: set<nat>, code: Code): Requests {
    q.(pending := q.pending - hit,
       settled := map r | r in q.settled :: if r in hit then q.settled[r] + [Rejected(code)] else q.settled[r])
  }

  function OfGeneration(pending: map<nat, Pending>, generation: nat): set<nat> {
    set r | r in pending && pending[r].generation == generation
  }

  function RejectGeneration(q: Requests, generation: nat, code: Code): Requests {
    RejectIn(q, OfGeneration(q.pending, generation), code)
  }

  function RejectAll(q: Requests, code: Code): Requests {
    RejectIn(q, q.pending.Keys, code)
  }

  function Register(q: Requests, request: nat, p: Pending): Requests {
    Requests(q.pending[request := p], q.registered[request := p], q.settled[request := []])
  }

  // ----- Startup --------------------------------------------------------------

  // Settling a promise that is settled already changes nothing.
  function RejectAttempt(attempts: seq<Attempt>, i: nat): seq<Attempt> {
    if i < |attempts| && attempts[i].Starting? then attempts[i := StartRejected] else attempts
  }

  function ResolveAttempt(attempts: seq<Attempt>, i: nat): seq<Attempt> {
    if i < |attempts| && attempts[i].Starting? then attempts[i := Started(attempts[i].generation)] else attempts
  }

  predicate WaitsFor(u: Startup, generation: nat) {
    u.waiter.Some? && u.waiter.value.generation == generation
  }

  function RejectStartup(u: Startup, generation: nat): Startup {
    if WaitsFor(u, generation)
    then u.(waiter := None, attempts := RejectAttempt(u.attempts, u.waiter.value.attempt))
    else u
  }

  function ResolveStartup(u: Startup, generation: nat): Startup
    requires WaitsFor(u, generation)
  {
    u.(waiter := None, ready := true,
       attempts := ResolveAttempt(u.attempts, u.waiter.value.attempt),
       identified := u.identified + {generation})
  }

  // The startup timer rejects the attempt and leaves the waiter in place.
  function TimeOutStartup(u: Startup, generation: nat): Startup
    requires WaitsFor(u, generation)
  {
    u.(attempts := RejectAttempt(u.attempts, u.waiter.value.attempt))
  }

  function Unready(u: Startup, generation: nat): Startup {
    if generation == u.generation then u.(ready := false) else u
  }

  // A refused restart leaves a rejected promise behind.
  function RefuseStart(u: Startup): Startup {
    u.(attempts := u.attempts + [StartRejected], start := Some(|u.attempts|))
  }

  // fork() threw: the generation has moved on, the waiter and #child have not.
  function FailFork(u: Startup): Startup {
    u.(generation := u.generation + 1, attempts := u.attempts + [StartRejected], start := Some(|u.attempts|))
  }

  function Fork(u: Startup): Startup {
    var g := u.generation + 1;
    u.(generation := g, child := Some(g), ready := false,
       attempts := u.attempts + [Starting(g)], start := Some(|u.attempts|),
       waiter := Some(Waiter(g, |u.attempts|)),
       launched := u.launched + {g})
  }

  function ExitStartup(u: Startup, generation: nat): Startup {
    var v := RejectStartup(u, generation);
    var w := if generation == v.generation then v.(ready := false, child := None) else v;
    w.(exitHandled := w.exitHandled + {generation})
  }

  // ----- Private methods ------------------------------------------------------

  function Quarantine(h: Host, generation: nat, code: Code): Host {
    h.(startup := Unready(h.startup, generation),
       lastFailure := if generation == h.startup.generation then Some(code) else h.lastFailure)
  }

  function AdmitRestart(cfg: Config, b: Breaker, now: int): Breaker {
    if Admits(cfg.policy, b.restartTimes, now)
    then b.(restartTimes := AfterAdmission(cfg.policy, b.restartTimes, now), restartCount := b.restartCount + 1)
    else b.(restartTimes := AfterAdmission(cfg.policy, b.restartTimes, now), openUntil := now + cfg.policy.cooldownMs)
  }

  // launchChild: `forked` is false when fork() throws.
  function LaunchChild(cfg: Config, h: Host, countRestart: bool, now: int, forked: bool): Host {
    if countRestart && !Admits(cfg.policy, h.breaker.restartTimes, now) then
      h.(breaker := AdmitRestart(cfg, h.breaker, now),
         lastFailure := Some(CircuitOpen),
         startup := RefuseStart(h.startup))
    else
      h.(breaker := if countRestart then AdmitRestart(cfg, h.breaker, now) else h.breaker,
         startup := if forked then Fork(h.startup) else FailFork(h.startup))
  }

  function StartChild(cfg: Config, h: Host, countRestart: bool, now: int, forked: bool): Host {
    if h.startup.start.Some? then h else LaunchChild(cfg, h, countRestart, now, forked)
  }

  // ensureReady once it is known that a child has to be started.
  function EnsureStarted(cfg: Config, h: Host, now: int, forked: bool): Host {
    var h1 := if h.breaker.openUntil != 0
              then h.(breaker := h.breaker.(openUntil := 0), lastFailure := None) else h;
    StartChild(cfg, h1, h1.startup.generation > 0, now, forked)
  }

  predicate IsReady(u: Startup) {
    u.ready && u.child.Some?
  }

  predicate Refuses(h: Host, now: int) {
    h.startup.closed || h.closing || (!IsReady(h.startup) && h.breaker.openUntil > now)
  }

  // Admission by #request, up to its first await.
  function AdmitCall(c: Calls, id: nat, operation: Operation, status: CallStatus): Calls {
    Calls(c.active[id := Call(operation, true, status)], c.inFlight + 1)
  }

  function BeginRequest(cfg: Config, h: Host, id: nat, operation: Operation, now: int, forked: bool): Host {
    if h.calls.inFlight >= cfg.maxConcurrentRequests then
      h.(calls := h.calls.(active := h.calls.active[id := Call(operation, true, Finished)]))
    else if Refuses(h, now) then
      h.(calls := AdmitCall(h.calls, id, operation, Unwinding))
    else if IsReady(h.startup) then
      h.(calls := AdmitCall(h.calls, id, operation, Waiting(None)))
    else
      var h1 := EnsureStarted(cfg, h, now, forked);
      h1.(calls := AdmitCall(h.calls, id, operation, Waiting(h1.startup.start)))
  }

  predicate AttemptStarted(u: Startup, i: nat) {
    i < |u.attempts| && u.attempts[i].Started?
  }

  predicate MayContinue(h: Host, id: nat) {
    && id in h.calls.active && h.calls.active[id].status.Waiting?
    && (h.calls.active[id].status.attempt.Some? ==> AttemptStarted(h.startup, h.calls.active[id].status.attempt.value))
  }

  function SetStatus(c: Calls, id: nat, s: CallStatus): Calls
    requires id in c.active
  {
    c.(active := c.active[id := c.active[id].(status := s)])
  }

  // After readiness: register the request, or throw. Request ids are random UUIDs.
  function ContinueRequest(h: Host, id: nat, request: nat, connected: bool, inTime: bool): Host {
    if !MayContinue(h, id) || request in h.requests.registered then h
    else if !IsReady(h.startup) || !connected || h.closing || !inTime then
      h.(calls := SetStatus(h.calls, id, Unwinding))
    else
      h.(requests := Register(h.requests, request, Pending(h.startup.generation, h.calls.active[id].operation)),
         calls := SetStatus(h.calls, id, Registered(request)))
  }

  function GiveUp(h: Host, id: nat): Host {
    if id in h.calls.active && h.calls.active[id].status.Waiting?
    then h.(calls := SetStatus(h.calls, id, Unwinding)) else h
  }

  predicate WaitsForRejected(h: Host, id: nat) {
    && id in h.calls.active && h.calls.active[id].status.Waiting? && h.calls.active[id].status.attempt.Some?
    && var i := h.calls.active[id].status.attempt.value;
       i < |h.startup.attempts| && h.startup.attempts[i].StartRejected?
  }

  // The promise of a registered request has settled when its log is not empty.
  predicate MayFinish(q: Requests, s: CallStatus) {
    s.Unwinding? || (s.Registered? && s.request in q.settled && q.settled[s.request] != [])
  }

  function FinishCall(h: Host, id: nat): Host {
    if id in h.calls.active && MayFinish(h.requests, h.calls.active[id].status) then
      h.(calls := Calls(SetStatus(h.calls, id, Finished).active,
                        if h.calls.active[id].counted then h.calls.inFlight - 1 else h.calls.inFlight))
    else h
  }

  function HandleReady(h: Host, generation: nat, expected: bool): Host {
    if !WaitsFor(h.startup, generation) then Quarantine(h, generation, ProtocolInvalid)
    else if !expected then Quarantine(h.(startup := RejectStartup(h.startup, generation)), generation, IdentityMismatch)
    else h.(startup := ResolveStartup(h.startup, generation), lastFailure := None)
  }

  function HandleResponse(h: Host, generation: nat, m: Message): Host
    requires m.Response?
  {
    if m.request !in h.requests.pending || m.request !in h.requests.settled then h
    else if h.requests.pending[m.request] != Pending(generation, m.operation) then
      Quarantine(h.(requests := RejectGeneration(h.requests, generation, ProtocolInvalid)), generation, ProtocolInvalid)
    else if !m.ok then
      h.(requests := Settle(h.requests, m.request, Rejected(m.code)))
    else if m.payloadValid then
      h.(requests := Settle(h.requests, m.request, Resolved(generation, m.operation)))
    else
      Quarantine(h.(requests := Settle(h.requests, m.request, Rejected(ProtocolInvalid))), generation, ProtocolInvalid)
  }

  function HandleMalformed(h: Host, generation: nat): Host {
    Quarantine(h.(startup := RejectStartup(h.startup, generation),
                  requests := RejectGeneration(h.requests, generation, ProtocolInvalid)),
               generation, ProtocolInvalid)
  }

  function HandleMessage(h: Host, generation: nat, m: Message): Host {
    match m
    case Malformed => HandleMalformed(h, generation)
    case StartupError(code) => Quarantine(h.(startup := RejectStartup(h.startup, generation)), generation, code)
    case Ready(expected) => HandleReady(h, generation, expected)
    case Response(_, _, _, _, _) => HandleResponse(h, generation, m)
  }

  function HandleExit(h: Host, generation: nat): Host {
    h.(startup := ExitStartup(h.startup, generation),
       requests := RejectGeneration(h.requests, generation, ChildExited),
       lastFailure := if generation == h.startup.generation && h.lastFailure.None? then Some(ChildExited) else h.lastFailure)
  }

  function FireStartupTimer(h: Host, generation: nat): Host {
    if WaitsFor(h.startup, generation)
    then Quarantine(h.(startup := TimeOutStartup(h.startup, generation)), generation, ProcessStartFailed)
    else h
  }

  // A request timer and a send callback act exactly while their request is pending.
  function FailRequest(h: Host, request: nat, code: Code): Host {
    if request in h.requests.pending && request in h.requests.settled
    then Quarantine(h.(requests := Settle(h.requests, request, Rejected(code))), h.requests.pending[request].generation, code)
    else h
  }

  // The microtask that handleExit queues.
  function TickRestart(cfg: Config, h: Host, generation: nat, now: int, forked: bool): Host {
    if generation in h.startup.exitHandled && generation == h.startup.generation
      && h.activated && !h.startup.closed && !h.closing
    then StartChild(cfg, h, true, now, forked) else h
  }

  predicate AttemptSettled(u: Startup, i: nat) {
    i < |u.attempts| && !u.attempts[i].Starting?
  }

  function FinishClose(h: Host): Host {
    if !h.closing then h
    else h.(startup := h.startup.(closed := true, ready := false, child := None), closing := false,
            requests := RejectAll(h.requests, ChildExited))
  }

  // The close request goes past the concurrency limit and past ensureReady.
  function AskClose(h: Host, id: nat, request: nat, connected: bool): Host {
    if h.closing && id !in h.calls.active && request !in h.requests.registered && IsReady(h.startup) && connected
    then h.(requests := Register(h.requests, request, Pending(h.startup.generation, CloseChild)),
            calls := h.calls.(active := h.calls.active[id := Call(CloseChild, false, Registered(request))]))
    else h
  }

  function OpenHost(cfg: Config, h: Host, now: int, forked: bool): Host {
    if h == NewHost then StartChild(cfg, h, false, now, forked) else h
  }

  function ClearStartPromise(h: Host, i: nat): Host {
    if h.startup.start == Some(i) && AttemptSettled(h.startup, i)
    then h.(startup := h.startup.(start := None)) else h
  }

  function Apply(cfg: Config, h: Host, s: Step): Host {
    match s
    case Open(now, forked) => OpenHost(cfg, h, now, forked)
    case Activate => h.(activated := true)
    case Request(id, operation, now, forked) =>
      if id in h.calls.active then h else BeginRequest(cfg, h, id, operation, now, forked)
    case Continue(id, request, connected, inTime) => ContinueRequest(h, id, request, connected, inTime)
    case DeadlineWhileWaiting(id) => GiveUp(h, id)
    case StartFailed(id) => if WaitsForRejected(h, id) then GiveUp(h, id) else h
    case RunFinally(id) => FinishCall(h, id)
    case Receive(g, m) => if g in h.startup.launched then HandleMessage(h, g, m) else h
    case Exit(g) => if g in h.startup.launched && g !in h.startup.exitHandled then HandleExit(h, g) else h
    case ChildError(g) => if g in h.startup.launched then h.(startup := RejectStartup(h.startup, g)) else h
    case StderrFlood(g) => if g in h.startup.launched then Quarantine(h, g, ProtocolInvalid) else h
    case StartupTimer(g) => FireStartupTimer(h, g)
    case RequestTimer(request) => FailRequest(h, request, DeadlineExceeded)
    case SendFailed(request) => FailRequest(h, request, ChildExited)
    case RestartTick(g, now, forked) => TickRestart(cfg, h, g, now, forked)
    case ClearStart(i) => ClearStartPromise(h, i)
    case CloseBegin => if h.startup.closed || h.closing then h else h.(closing := true)
    case CloseAsk(id, request, connected) => AskClose(h, id, request, connected)
    case CloseFinish => FinishClose(h)
  }

  function Run(cfg: Config, h: Host, steps: seq<Step>): Host
    decreases |steps|
  {
    if steps == [] then h else Run(cfg, Apply(cfg, h, steps[0]), steps[1..])
  }
}
