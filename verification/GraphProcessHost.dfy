// The process host as the object it is: private methods that update its fields,
// each proved to be the transition of the protocol that it stands for.
module GraphProcessHost {
  import RestartLimiter
  import opened HostProtocol
  import HostStartup
  import HostRequests
  import HostTheorems

  class Supervisor {
    const cfg: Config

    var pending: map<nat, Pending>
    var restartTimes: seq<int>
    var inFlightRequests: int
    var child: Option<nat>
    var generation: nat
    var restartCount: nat
    var ready: bool
    var activated: bool
    var closed: bool
    var closing: bool
    var lastFailure: Option<Code>
    var circuitOpenUntil: int
    var startPromise: Option<nat>
    var startupWaiter: Option<Waiter>

    // Promises: the start attempts, the calls of #request, and the pending requests.
    var attempts: seq<Attempt>
    var active: map<nat, Call>
    var settled: map<nat, seq<Settlement>>
    var registered: map<nat, Pending>

    // What the children did, and every step since the host was made.
    var launched: set<nat>
    ghost var identified: set<nat>
    var exitHandled: set<nat>
    ghost var history: seq<Step>

    ghost function StartupState(): Startup
      reads this
    {
      Startup(generation, child, ready, closed, startPromise, startupWaiter, attempts, launched, identified, exitHandled)
    }

    ghost function RequestState(): Requests
      reads this
    {
      Requests(pending, registered, settled)
    }

    ghost function CallState(): Calls
      reads this
    {
      Calls(active, inFlightRequests)
    }

    ghost function BreakerState(): Breaker
      reads this
    {
      Breaker(restartTimes, circuitOpenUntil, restartCount)
    }

    ghost function State(): Host
      reads this
    {
      Host(StartupState(), RequestState(), CallState(), BreakerState(), lastFailure, activated, closing)
    }

    // Every host state is the outcome of the steps it took.
    ghost predicate Valid()
      reads this
    {
      State() == HostProtocol.Run(cfg, NewHost, history)
    }

    constructor (cfg: Config)
      ensures Valid() && this.cfg == cfg && State() == NewHost
    {
      this.cfg := cfg;
      pending, restartTimes, inFlightRequests := map[], [], 0;
      child, generation, restartCount := None, 0, 0;
      ready, activated, closed, closing := false, false, false, false;
      lastFailure, circuitOpenUntil, startPromise, startupWaiter := None, 0, None, None;
      attempts, active, settled, registered := [], map[], map[], map[];
      launched, identified, exitHandled, history := {}, {}, {}, [];
    }

    // ----- The pending map ----------------------------------------------------

    // A promise that gets a call of resolve or reject.
    method SettleRequest(request: nat, s: Settlement)
      requires request in settled
      modifies `pending, `settled
      ensures RequestState() == HostProtocol.Settle(old(RequestState()), request, s)
    {
      pending := pending - {request};
      settled := settled[request := settled[request] + [s]];
    }

    method RejectGeneration(g: nat, code: Code)
      requires pending.Keys <= settled.Keys
      modifies `pending, `settled
      ensures RequestState() == HostProtocol.RejectGeneration(old(RequestState()), g, code)
    {
      var rest := pending.Keys;
      ghost var q := RequestState();
      ghost var hit: set<nat> := {};
      RejectNone(q, code);
      while rest != {}
        invariant rest <= q.pending.Keys && rest !! hit
        invariant hit <= OfGeneration(q.pending, g) <= hit + rest
        invariant RequestState() == RejectIn(q, hit, code)
        decreases |rest|
      {
        var r :| r in rest;
        rest := rest - {r};
        assert r in pending && pending[r] == q.pending[r];
        if pending[r].generation == g {
          RejectOneMore(q, hit, r, code);
          hit := hit + {r};
          SettleRequest(r, Rejected(code));
        }
      }
      assert hit == OfGeneration(q.pending, g);
    }

    method RejectPromise(r: nat, code: Code)
      requires r in settled
      modifies `settled
      ensures settled == old(settled)[r := old(settled)[r] + [Rejected(code)]]
    {
      settled := settled[r := settled[r] + [Rejected(code)]];
    }

    // The loop of rejectAll: it takes nothing out of the map that it walks.
    method RejectEachPending(code: Code)
      requires pending.Keys <= settled.Keys
      modifies `settled
      ensures settled == RejectIn(old(RequestState()), pending.Keys, code).settled
    {
      ghost var q := RequestState();
      var rest := pending.Keys;
      ghost var hit: set<nat> := {};
      RejectNone(q, code);
      while rest != {}
        invariant rest <= q.pending.Keys && hit == q.pending.Keys - rest
        invariant settled == RejectIn(q, hit, code).settled
        decreases |rest|
      {
        var r :| r in rest;
        RejectOneMore(q, hit, r, code);
        rest, hit := rest - {r}, hit + {r};
        RejectPromise(r, code);
      }
      assert hit == q.pending.Keys;
    }

    method RejectAll(code: Code)
      requires pending.Keys <= settled.Keys
      modifies `pending, `settled
      ensures RequestState() == HostProtocol.RejectAll(old(RequestState()), code)
    {
      RejectEachPending(code);
      RejectWhole(old(RequestState()), pending.Keys, code);
      pending := map[];
    }

    // ----- Startup ------------------------------------------------------------

    method RejectStartup(g: nat)
      modifies `startupWaiter, `attempts
      ensures StartupState() == HostProtocol.RejectStartup(old(StartupState()), g)
    {
      if startupWaiter.None? || startupWaiter.value.generation != g {
        return;
      }
      var startup := startupWaiter.value;
      startupWaiter := None;
      if startup.attempt < |attempts| && attempts[startup.attempt].Starting? {
        attempts := attempts[startup.attempt := StartRejected];
      }
    }

    method Quarantine(g: nat, code: Code)
      modifies `lastFailure, `ready
      ensures State() == HostProtocol.Quarantine(old(State()), g, code)
    {
      if g != generation {
        return;
      }
      lastFailure := Some(code);
      ready := false;
    }

    // The sliding window: drop what is too old, then admit or open the circuit.
    method AdmitRestart(now: int) returns (admitted: bool)
      modifies `restartTimes, `circuitOpenUntil, `lastFailure
      ensures admitted == RestartLimiter.Admits(cfg.policy, old(restartTimes), now)
      ensures restartTimes == RestartLimiter.AfterAdmission(cfg.policy, old(restartTimes), now)
      ensures circuitOpenUntil == if admitted then old(circuitOpenUntil) else now + cfg.policy.cooldownMs
      ensures lastFailure == if admitted then old(lastFailure) else Some(CircuitOpen)
    {
      var windowStart := now - cfg.policy.windowMs;
      while restartTimes != [] && restartTimes[0] < windowStart
        invariant RestartLimiter.Trim(restartTimes, windowStart) == RestartLimiter.Trim(old(restartTimes), windowStart)
        invariant circuitOpenUntil == old(circuitOpenUntil) && lastFailure == old(lastFailure)
        decreases |restartTimes|
      {
        TrimShifts(restartTimes, windowStart);
        restartTimes := restartTimes[1..];
      }
      if |restartTimes| >= cfg.policy.maxRestarts {
        circuitOpenUntil := now + cfg.policy.cooldownMs;
        lastFailure := Some(CircuitOpen);
        return false;
      }
      restartTimes := restartTimes + [now];
      return true;
    }

    // The part of launchChild after admission.
    method ForkChild(forked: bool)
      modifies `generation, `child, `ready, `startupWaiter, `attempts, `launched, `startPromise
      ensures StartupState() == if forked then HostProtocol.Fork(old(StartupState())) else HostProtocol.FailFork(old(StartupState()))
    {
      startPromise := Some(|attempts|);
      generation := generation + 1;
      if !forked {
        attempts := attempts + [StartRejected];
        return;
      }
      launched := launched + {generation};
      child := Some(generation);
      ready := false;
      startupWaiter := Some(Waiter(generation, |attempts|));
      attempts := attempts + [Starting(generation)];
    }

    // An async function's failure is a rejected promise.
    method LaunchChild(countRestart: bool, now: int, forked: bool)
      modifies `restartTimes, `circuitOpenUntil, `lastFailure, `restartCount, `generation, `child, `ready,
        `startupWaiter, `attempts, `launched, `startPromise
      ensures var refused := countRestart && !RestartLimiter.Admits(cfg.policy, old(restartTimes), now);
        && StartupState() == (if refused then HostProtocol.RefuseStart(old(StartupState()))
                              else if forked then HostProtocol.Fork(old(StartupState()))
                              else HostProtocol.FailFork(old(StartupState())))
        && lastFailure == (if refused then Some(CircuitOpen) else old(lastFailure))
      ensures BreakerState() ==
        if countRestart then HostProtocol.AdmitRestart(cfg, old(BreakerState()), now) else old(BreakerState())
    {
      if countRestart {
        var admitted := AdmitRestart(now);
        if !admitted {
          startPromise := Some(|attempts|);
          attempts := attempts + [StartRejected];
          return;
        }
        restartCount := restartCount + 1;
      }
      ForkChild(forked);
    }

    method StartChild(countRestart: bool, now: int, forked: bool)
      modifies `restartTimes, `circuitOpenUntil, `lastFailure, `restartCount, `generation, `child, `ready,
        `startupWaiter, `attempts, `launched, `startPromise
      ensures State() == HostProtocol.StartChild(cfg, old(State()), countRestart, now, forked)
    {
      if startPromise.None? {
        LaunchChild(countRestart, now, forked);
      }
    }

    // ----- Requests -----------------------------------------------------------

    // ensureReady: the status in which it leaves the call.
    method EnsureReady(now: int, forked: bool) returns (status: CallStatus)
      modifies `restartTimes, `circuitOpenUntil, `lastFailure, `restartCount, `generation, `child, `ready,
        `startupWaiter, `attempts, `launched, `startPromise
      ensures State() ==
        if Refuses(old(State()), now) || IsReady(old(StartupState())) then old(State())
        else HostProtocol.EnsureStarted(cfg, old(State()), now, forked)
      ensures status ==
        if Refuses(old(State()), now) then Unwinding
        else if IsReady(old(StartupState())) then Waiting(None)
        else Waiting(startPromise)
    {
      if closed || closing {
        return Unwinding;
      }
      if ready && child.Some? {
        return Waiting(None);
      }
      if circuitOpenUntil > now {
        return Unwinding;
      }
      if circuitOpenUntil != 0 {
        circuitOpenUntil := 0;
        lastFailure := None;
      }
      StartChild(generation > 0, now, forked);
      return Waiting(startPromise);
    }

    method BeginRequest(id: nat, operation: Operation, now: int, forked: bool)
      requires id !in active
      modifies `restartTimes, `circuitOpenUntil, `lastFailure, `restartCount, `generation, `child, `ready,
        `startupWaiter, `attempts, `launched, `startPromise, `active, `inFlightRequests
      ensures State() == HostProtocol.BeginRequest(cfg, old(State()), id, operation, now, forked)
    {
      ghost var h := State();
      if inFlightRequests >= cfg.maxConcurrentRequests {
        active := active[id := Call(operation, true, Finished)];
        return;
      }
      inFlightRequests := inFlightRequests + 1;
      ghost var c := CallState();
      assert State() == h.(calls := c);
      var status := EnsureReady(now, forked);
      ghost var k := State();
      active := active[id := Call(operation, true, status)];
      assert State() == k.(calls := CallState());
      BeginInTwo(cfg, h, c, k, id, operation, now, forked);
    }

    method ContinueRequest(id: nat, request: nat, connected: bool, inTime: bool)
      requires HostProtocol.MayContinue(State(), id) && request !in registered
      modifies `active, `pending, `registered, `settled
      ensures State() == HostProtocol.ContinueRequest(old(State()), id, request, connected, inTime)
    {
      if child.None? || !ready || !connected || closing || !inTime {
        active := active[id := active[id].(status := Unwinding)];
        return;
      }
      var p := Pending(generation, active[id].operation);
      pending := pending[request := p];
      registered := registered[request := p];
      settled := settled[request := []];
      active := active[id := active[id].(status := Registered(request))];
    }

    method FinishRequest(id: nat)
      requires id in active && HostProtocol.MayFinish(RequestState(), active[id].status)
      modifies `active, `inFlightRequests
      ensures State() == HostProtocol.FinishCall(old(State()), id)
    {
      if active[id].counted {
        inFlightRequests := inFlightRequests - 1;
      }
      active := active[id := active[id].(status := Finished)];
    }

    // ----- Events -------------------------------------------------------------

    method ResolveStartup()
      requires startupWaiter.Some?
      modifies `startupWaiter, `attempts, `ready, `identified
      ensures StartupState() == HostProtocol.ResolveStartup(old(StartupState()), old(startupWaiter).value.generation)
    {
      var startup := startupWaiter.value;
      startupWaiter := None;
      ready := true;
      if startup.attempt < |attempts| && attempts[startup.attempt].Starting? {
        attempts := attempts[startup.attempt := Started(attempts[startup.attempt].generation)];
      }
      identified := identified + {startup.generation};
    }

    method HandleReady(g: nat, expected: bool)
      modifies `startupWaiter, `attempts, `ready, `lastFailure, `identified
      ensures State() == HostProtocol.HandleReady(old(State()), g, expected)
    {
      if startupWaiter.None? || startupWaiter.value.generation != g {
        Quarantine(g, ProtocolInvalid);
        return;
      }
      if !expected {
        RejectStartup(g);
        Quarantine(g, IdentityMismatch);
        return;
      }
      ResolveStartup();
      lastFailure := None;
    }

    method HandleResponse(g: nat, m: Message)
      requires m.Response? && pending.Keys <= settled.Keys
      modifies `pending, `settled, `ready, `lastFailure
      ensures State() == HostProtocol.HandleResponse(old(State()), g, m)
    {
      if m.request !in pending {
        return;
      }
      var p := pending[m.request];
      if p.generation != g || p.operation != m.operation {
        RejectGeneration(g, ProtocolInvalid);
        Quarantine(g, ProtocolInvalid);
        return;
      }
      if !m.ok {
        SettleRequest(m.request, Rejected(m.code));
      } else if m.payloadValid {
        SettleRequest(m.request, Resolved(g, m.operation));
      } else {
        SettleRequest(m.request, Rejected(ProtocolInvalid));
        Quarantine(g, ProtocolInvalid);
      }
    }

    method HandleMessage(g: nat, m: Message)
      requires pending.Keys <= settled.Keys
      modifies `pending, `settled, `ready, `lastFailure, `startupWaiter, `attempts, `identified
      ensures State() == HostProtocol.HandleMessage(old(State()), g, m)
    {
      match m
      case Malformed =>
        RejectStartup(g);
        RejectGeneration(g, ProtocolInvalid);
        Quarantine(g, ProtocolInvalid);
      case StartupError(code) =>
        RejectStartup(g);
        Quarantine(g, code);
      case Ready(expected) =>
        HandleReady(g, expected);
      case Response(_, _, _, _, _) =>
        HandleResponse(g, m);
    }

    method HandleExit(g: nat)
      requires pending.Keys <= settled.Keys
      modifies `pending, `settled, `ready, `child, `lastFailure, `startupWaiter, `attempts, `exitHandled
      ensures StartupState() == HostProtocol.ExitStartup(old(StartupState()), g)
      ensures RequestState() == HostProtocol.RejectGeneration(old(RequestState()), g, ChildExited)
      ensures lastFailure == if g == generation && old(lastFailure).None? then Some(ChildExited) else old(lastFailure)
    {
      RejectStartup(g);
      RejectGeneration(g, ChildExited);
      if g == generation {
        ready := false;
        child := None;
        if lastFailure.None? {
          lastFailure := Some(ChildExited);
        }
      }
      exitHandled := exitHandled + {g};
    }

    method FireStartupTimer(g: nat)
      modifies `attempts, `ready, `lastFailure
      ensures State() == HostProtocol.FireStartupTimer(old(State()), g)
    {
      if startupWaiter.Some? && startupWaiter.value.generation == g {
        var i := startupWaiter.value.attempt;
        if i < |attempts| && attempts[i].Starting? {
          attempts := attempts[i := StartRejected];
        }
        Quarantine(g, ProcessStartFailed);
      }
    }

    method FailRequest(request: nat, code: Code)
      requires pending.Keys <= settled.Keys
      modifies `pending, `settled, `ready, `lastFailure
      ensures State() == HostProtocol.FailRequest(old(State()), request, code)
    {
      if request !in pending {
        return;
      }
      var g := pending[request].generation;
      SettleRequest(request, Rejected(code));
      Quarantine(g, code);
    }

    method FinishClose()
      requires closing && pending.Keys <= settled.Keys
      modifies `closed, `closing, `ready, `child, `pending, `settled
      ensures StartupState() == old(StartupState()).(closed := true, ready := false, child := None)
      ensures RequestState() == HostProtocol.RejectAll(old(RequestState()), ChildExited)
      ensures !closing
    {
      closed := true;
      closing := false;
      ready := false;
      child := None;
      RejectAll(ChildExited);
    }

    method AskClose(id: nat, request: nat, connected: bool)
      requires closing && id !in active && request !in registered
      modifies `active, `pending, `registered, `settled
      ensures State() == HostProtocol.AskClose(old(State()), id, request, connected)
    {
      if child.Some? && ready && connected {
        var p := Pending(generation, CloseChild);
        pending := pending[request := p];
        registered := registered[request := p];
        settled := settled[request := []];
        active := active[id := Call(CloseChild, false, Registered(request))];
      }
    }

    // ----- One step -----------------------------------------------------------

    // The child's events; a step that cannot happen changes nothing.
    method TakeChildEvent(s: Step)
      requires s.Receive? || s.ChildError? || s.StderrFlood? || s.StartupTimer?
      requires pending.Keys <= settled.Keys
      modifies `pending, `settled, `ready, `lastFailure, `startupWaiter, `attempts, `identified
      ensures State() == Apply(cfg, old(State()), s)
    {
      match s
      case Receive(g, m) => if g in launched { HandleMessage(g, m); }
      case ChildError(g) => if g in launched { RejectStartup(g); }
      case StderrFlood(g) => if g in launched { Quarantine(g, ProtocolInvalid); }
      case StartupTimer(g) => FireStartupTimer(g);
    }

    // The promise continuations and timers of the calls of #request.
    method TakeCallEvent(s: Step)
      requires s.Continue? || s.DeadlineWhileWaiting? || s.StartFailed? || s.RunFinally? || s.RequestTimer? || s.SendFailed?
      requires pending.Keys <= settled.Keys
      modifies `pending, `registered, `settled, `active, `inFlightRequests, `ready, `lastFailure
      ensures State() == Apply(cfg, old(State()), s)
    {
      match s
      case Continue(id, request, connected, inTime) =>
        if MayContinueHere(id) && request !in registered { ContinueRequest(id, request, connected, inTime); }
      case DeadlineWhileWaiting(id) => GiveUpWaiting(id);
      case StartFailed(id) =>
        if id in active && active[id].status.Waiting? && active[id].status.attempt.Some?
          && active[id].status.attempt.value < |attempts| && attempts[active[id].status.attempt.value].StartRejected?
        {
          GiveUpWaiting(id);
        }
      case RunFinally(id) =>
        if id in active && HostProtocol.MayFinish(Requests(pending, registered, settled), active[id].status) { FinishRequest(id); }
      case RequestTimer(request) => FailRequest(request, DeadlineExceeded);
      case SendFailed(request) => FailRequest(request, ChildExited);
    }

    predicate MayContinueHere(id: nat)
      reads this
      ensures MayContinueHere(id) <==> HostProtocol.MayContinue(State(), id)
    {
      && id in active && active[id].status.Waiting?
      && (active[id].status.attempt.Some? ==>
            active[id].status.attempt.value < |attempts| && attempts[active[id].status.attempt.value].Started?)
    }

    method GiveUpWaiting(id: nat)
      modifies `active
      ensures State() == HostProtocol.GiveUp(old(State()), id)
    {
      if id in active && active[id].status.Waiting? {
        active := active[id := active[id].(status := Unwinding)];
      }
    }

    method TakeExit(g: nat)
      requires pending.Keys <= settled.Keys
      modifies `pending, `settled, `ready, `child, `lastFailure, `startupWaiter, `attempts, `exitHandled
      ensures State() == Apply(cfg, old(State()), Exit(g))
    {
      if g in launched && g !in exitHandled { HandleExit(g); }
    }

    // The public calls and the queued restart.
    method TakeOwnStep(s: Step)
      requires s.Activate? || s.Request? || s.RestartTick? || s.ClearStart?
      modifies `restartTimes, `circuitOpenUntil, `lastFailure, `restartCount, `generation, `child, `ready,
        `startupWaiter, `attempts, `launched, `startPromise, `active, `inFlightRequests, `activated
      ensures State() == Apply(cfg, old(State()), s)
    {
      match s
      case Activate => activated := true;
      case Request(id, operation, now, forked) => if id !in active { BeginRequest(id, operation, now, forked); }
      case RestartTick(g, now, forked) =>
        if g in exitHandled && g == generation && activated && !closed && !closing { StartChild(true, now, forked); }
      case ClearStart(i) =>
        if startPromise == Some(i) && i < |attempts| && !attempts[i].Starting? { startPromise := None; }
    }

    // close(): before, during and after the close request.
    method TakeClose(s: Step)
      requires s.CloseBegin? || s.CloseAsk? || s.CloseFinish?
      requires pending.Keys <= settled.Keys
      modifies `pending, `registered, `settled, `active, `closed, `closing, `ready, `child
      ensures State() == Apply(cfg, old(State()), s)
    {
      match s
      case CloseBegin => if !closed && !closing { closing := true; }
      case CloseAsk(id, request, connected) =>
        if closing && id !in active && request !in registered { AskClose(id, request, connected); }
      case CloseFinish => if closing { FinishClose(); }
    }

    // Every step that a callback, a timer or a caller can make is a step of the
    // protocol; so all that is proved of its runs holds of this object.
    method Take(s: Step)
      requires Valid() && !s.Open?
      modifies this
      ensures Valid() && State() == Apply(cfg, old(State()), s)
      ensures history == old(history) + [s]
    {
      ghost var h := State();
      PendingAreSettled(cfg, h, history);
      if s.Receive? || s.ChildError? || s.StderrFlood? || s.StartupTimer? {
        TakeChildEvent(s);
      } else if s.Exit? {
        TakeExit(s.generation);
      } else if s.Continue? || s.DeadlineWhileWaiting? || s.StartFailed? || s.RunFinally? || s.RequestTimer? || s.SendFailed? {
        TakeCallEvent(s);
      } else if s.Activate? || s.Request? || s.RestartTick? || s.ClearStart? {
        TakeOwnStep(s);
      } else {
        TakeClose(s);
      }
      RunOneMore(cfg, history, h, s);
      history := history + [s];
    }

    // open(): the constructor and the first start, which counts as no restart.
    method Open(now: int, forked: bool)
      requires Valid() && State() == NewHost
      modifies this
      ensures Valid() && State() == Apply(cfg, NewHost, Step.Open(now, forked))
    {
      StartChild(false, now, forked);
      RunOneMore(cfg, history, NewHost, Step.Open(now, forked));
      history := history + [Step.Open(now, forked)];
    }
  }

  lemma PendingAreSettled(cfg: Config, h: Host, history: seq<Step>)
    requires h == HostProtocol.Run(cfg, NewHost, history)
    ensures h.requests.pending.Keys <= h.requests.settled.Keys
  {
    HostTheorems.ReachableOk(cfg, h);
  }

  lemma RunOneMore(cfg: Config, history: seq<Step>, h: Host, s: Step)
    requires h == HostProtocol.Run(cfg, NewHost, history)
    ensures HostProtocol.Run(cfg, NewHost, history + [s]) == Apply(cfg, h, s)
  {
    HostTheorems.RunAppend(cfg, NewHost, history, [s]);
    assert HostProtocol.Run(cfg, Apply(cfg, h, s), []) == Apply(cfg, h, s);
    assert HostProtocol.Run(cfg, h, [s]) == Apply(cfg, h, s);
  }

  // A request's admission does not touch what ensureReady works on.
  lemma BeginInTwo(cfg: Config, h: Host, c: Calls, k: Host, id: nat, operation: Operation, now: int, forked: bool)
    requires h.calls.inFlight < cfg.maxConcurrentRequests && c == h.calls.(inFlight := h.calls.inFlight + 1)
    requires k == if Refuses(h.(calls := c), now) || IsReady(h.startup) then h.(calls := c)
                  else EnsureStarted(cfg, h.(calls := c), now, forked)
    ensures var status := if Refuses(h, now) then Unwinding
                          else if IsReady(h.startup) then Waiting(None) else Waiting(k.startup.start);
            HostProtocol.BeginRequest(cfg, h, id, operation, now, forked)
              == k.(calls := c.(active := c.active[id := Call(operation, true, status)]))
  {
    if !Refuses(h, now) && !IsReady(h.startup) { StartIgnoresCalls(cfg, h, c, now, forked); }
  }

  lemma StartIgnoresCalls(cfg: Config, h: Host, c: Calls, now: int, forked: bool)
    ensures EnsureStarted(cfg, h.(calls := c), now, forked) == EnsureStarted(cfg, h, now, forked).(calls := c)
  {
  }

  lemma RejectNone(q: Requests, code: Code)
    ensures RejectIn(q, {}, code) == q
  {
    assert RejectIn(q, {}, code).settled == q.settled;
  }

  lemma RejectWhole(q: Requests, hit: set<nat>, code: Code)
    requires hit == q.pending.Keys
    ensures HostProtocol.RejectAll(q, code) == Requests(map[], q.registered, RejectIn(q, hit, code).settled)
  {
    assert q.pending - hit == map[];
  }

  lemma RejectOneMore(q: Requests, hit: set<nat>, r: nat, code: Code)
    requires r in q.pending && r in q.settled && r !in hit
    ensures r in RejectIn(q, hit, code).settled
    ensures HostProtocol.Settle(RejectIn(q, hit, code), r, Rejected(code)) == RejectIn(q, hit + {r}, code)
    ensures RejectIn(q, hit + {r}, code).settled
         == RejectIn(q, hit, code).settled[r := RejectIn(q, hit, code).settled[r] + [Rejected(code)]]
  {
    assert RejectIn(q, hit + {r}, code).settled == HostProtocol.Settle(RejectIn(q, hit, code), r, Rejected(code)).settled;
    assert RejectIn(q, hit + {r}, code).pending == HostProtocol.Settle(RejectIn(q, hit, code), r, Rejected(code)).pending;
  }

  lemma TrimShifts(times: seq<int>, windowStart: int)
    requires times != [] && times[0] < windowStart
    ensures RestartLimiter.Trim(times, windowStart) == RestartLimiter.Trim(times[1..], windowStart)
  {
    var n := RestartLimiter.Expired(times[1..], windowStart);
    assert times[1..][n..] == times[1 + n..];
  }
}
