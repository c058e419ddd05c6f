// The pending map of the graph process host, and the calls in flight.
module HostRequests {
  import opened HostProtocol
  import opened HostStartup

  // Every registered request is either pending or settled exactly once, a resolved
  // one was resolved by a message of its own generation and operation, and none is
  // pending whose child is known to have exited.
  ghost predicate RequestsOk(q: Requests, exitHandled: set<nat>) {
    && q.registered.Keys == q.settled.Keys
    && (forall r :: r in q.pending ==> r in q.registered && q.pending[r] == q.registered[r])
    && (forall r :: r in q.pending ==> q.pending[r].generation !in exitHandled)
    && (forall r :: r in q.settled ==> SettledOnce(q, r))
  }

  ghost predicate SettledOnce(q: Requests, r: nat)
    requires r in q.settled
  {
    if r in q.pending then q.settled[r] == []
    else
      && |q.settled[r]| == 1
      && (q.settled[r][0].Resolved? ==>
            r in q.registered && q.registered[r] == Pending(q.settled[r][0].generation, q.settled[r][0].operation))
  }

  lemma SettleKeeps(q: Requests, exits: set<nat>, r: nat, s: Settlement)
    requires RequestsOk(q, exits) && r in q.pending
    requires s.Resolved? ==> q.pending[r] == Pending(s.generation, s.operation)
    ensures r in q.settled && RequestsOk(Settle(q, r, s), exits)
  {
    var k := Settle(q, r, s);
    forall x | x in k.settled ensures SettledOnce(k, x) {
      assert SettledOnce(q, x);
    }
  }

  lemma RejectInKeeps(q: Requests, exits: set<nat>, hit: set<nat>, code: Code)
    requires RequestsOk(q, exits) && hit <= q.pending.Keys
    ensures RequestsOk(RejectIn(q, hit, code), exits)
  {
    var k := RejectIn(q, hit, code);
    assert k.settled.Keys == q.settled.Keys;
    forall x | x in k.settled ensures SettledOnce(k, x) {
      assert SettledOnce(q, x);
    }
  }

  lemma RejectGenerationKeeps(q: Requests, exits: set<nat>, g: nat, code: Code)
    requires RequestsOk(q, exits)
    ensures RequestsOk(RejectGeneration(q, g, code), exits)
    ensures RequestsOk(RejectGeneration(q, g, code), exits + {g})
  {
    RejectInKeeps(q, exits, OfGeneration(q.pending, g), code);
    var k := RejectGeneration(q, g, code);
    forall r | r in k.pending ensures k.pending[r].generation !in exits + {g} {
      assert r in q.pending && r !in OfGeneration(q.pending, g);
    }
  }

  lemma RegisterKeeps(q: Requests, exits: set<nat>, r: nat, p: Pending)
    requires RequestsOk(q, exits) && r !in q.registered && p.generation !in exits
    ensures RequestsOk(Register(q, r, p), exits)
  {
    var k := Register(q, r, p);
    forall x | x in k.settled ensures SettledOnce(k, x) {
      if x != r { assert SettledOnce(q, x); }
    }
  }

  ghost predicate PendingOk(h: Host) {
    RequestsOk(h.requests, h.startup.exitHandled) && (h.startup.closed ==> h.requests.pending == map[])
  }

  lemma StartChildKeepsPending(cfg: Config, h: Host, countRestart: bool, now: int, forked: bool)
    requires PendingOk(h)
    ensures PendingOk(StartChild(cfg, h, countRestart, now, forked))
  {
  }

  // Replacing only the pending map, the log or readiness keeps the rest of the host.
  lemma RequestsKeep(h: Host, q: Requests, g: nat, code: Code)
    requires PendingOk(h) && RequestsOk(q, h.startup.exitHandled) && q.pending.Keys <= h.requests.pending.Keys
    ensures PendingOk(h.(requests := q))
    ensures PendingOk(Quarantine(h.(requests := q), g, code))
  {
  }

  lemma RejectionKeepsPending(h: Host, g: nat)
    requires PendingOk(h)
    ensures PendingOk(Quarantine(h.(requests := RejectGeneration(h.requests, g, ProtocolInvalid)), g, ProtocolInvalid))
  {
    RejectGenerationKeeps(h.requests, h.startup.exitHandled, g, ProtocolInvalid);
    RequestsKeep(h, RejectGeneration(h.requests, g, ProtocolInvalid), g, ProtocolInvalid);
  }

  lemma ResponseKeepsPending(h: Host, g: nat, m: Message)
    requires PendingOk(h) && m.Response?
    ensures PendingOk(HandleResponse(h, g, m))
  {
    if m.request in h.requests.pending {
      if h.requests.pending[m.request] != Pending(g, m.operation) {
        RejectionKeepsPending(h, g);
      } else {
        var s := if !m.ok then Rejected(m.code) else if m.payloadValid then Resolved(g, m.operation) else Rejected(ProtocolInvalid);
        SettleKeeps(h.requests, h.startup.exitHandled, m.request, s);
        RequestsKeep(h, Settle(h.requests, m.request, s), g, ProtocolInvalid);
      }
    }
  }

  lemma MessageKeepsPending(h: Host, g: nat, m: Message)
    requires PendingOk(h)
    ensures PendingOk(HandleMessage(h, g, m))
  {
    match m
    case Malformed => RejectGenerationKeeps(h.requests, h.startup.exitHandled, g, ProtocolInvalid);
    case StartupError(_) =>
    case Ready(_) =>
    case Response(_, _, _, _, _) => ResponseKeepsPending(h, g, m);
  }

  lemma FailKeepsPending(h: Host, r: nat, code: Code)
    requires PendingOk(h)
    ensures PendingOk(FailRequest(h, r, code))
  {
    if r in h.requests.pending { SettleKeeps(h.requests, h.startup.exitHandled, r, Rejected(code)); }
  }

  lemma RegistrationKeepsPending(h: Host, r: nat, operation: Operation)
    requires PendingOk(h) && StartupOk(h.startup) && IsReady(h.startup) && r !in h.requests.registered
    ensures PendingOk(h.(requests := Register(h.requests, r, Pending(h.startup.generation, operation))))
  {
    RegisterKeeps(h.requests, h.startup.exitHandled, r, Pending(h.startup.generation, operation));
  }

  lemma CloseKeepsPending(h: Host)
    requires PendingOk(h)
    ensures PendingOk(FinishClose(h))
  {
    RejectInKeeps(h.requests, h.startup.exitHandled, h.requests.pending.Keys, ChildExited);
  }

  lemma BeginKeepsPending(cfg: Config, h: Host, id: nat, operation: Operation, now: int, forked: bool)
    requires PendingOk(h)
    ensures PendingOk(BeginRequest(cfg, h, id, operation, now, forked))
  {
    var h1 := if h.breaker.openUntil != 0 then h.(breaker := h.breaker.(openUntil := 0), lastFailure := None) else h;
    StartChildKeepsPending(cfg, h1, h1.startup.generation > 0, now, forked);
  }

  lemma StepKeepsPending(cfg: Config, h: Host, s: Step)
    requires PendingOk(h) && StartupOk(h.startup)
    ensures PendingOk(Apply(cfg, h, s))
  {
    if s.Open? || s.Request? || s.RestartTick? { StartStepKeepsPending(cfg, h, s); } else { OtherStepKeepsPending(cfg, h, s); }
  }

  lemma StartStepKeepsPending(cfg: Config, h: Host, s: Step)
    requires PendingOk(h) && (s.Open? || s.Request? || s.RestartTick?)
    ensures PendingOk(Apply(cfg, h, s))
  {
    match s
    case Open(now, forked) => StartChildKeepsPending(cfg, h, false, now, forked);
    case Request(id, operation, now, forked) => BeginKeepsPending(cfg, h, id, operation, now, forked);
    case RestartTick(g, now, forked) => StartChildKeepsPending(cfg, h, true, now, forked);
  }

  lemma OtherStepKeepsPending(cfg: Config, h: Host, s: Step)
    requires PendingOk(h) && StartupOk(h.startup) && !s.Open? && !s.Request? && !s.RestartTick?
    ensures PendingOk(Apply(cfg, h, s))
  {
    match s
    case Continue(id, request, connected, inTime) =>
      if id in h.calls.active && IsReady(h.startup) && request !in h.requests.registered {
        RegistrationKeepsPending(h, request, h.calls.active[id].operation);
      }
    case Receive(g, m) => MessageKeepsPending(h, g, m);
    case Exit(g) => RejectGenerationKeeps(h.requests, h.startup.exitHandled, g, ChildExited);
    case RequestTimer(request) => FailKeepsPending(h, request, DeadlineExceeded);
    case SendFailed(request) => FailKeepsPending(h, request, ChildExited);
    case CloseAsk(id, request, connected) =>
      if IsReady(h.startup) && request !in h.requests.registered { RegistrationKeepsPending(h, request, CloseChild); }
    case CloseFinish => CloseKeepsPending(h);
    case ChildError(g) =>
    case StderrFlood(g) =>
    case StartupTimer(g) =>
    case ClearStart(i) =>
    case Activate =>
    case DeadlineWhileWaiting(_) =>
    case StartFailed(_) =>
    case RunFinally(_) =>
    case CloseBegin =>
  }

  // ----- Calls in flight ------------------------------------------------------

  ghost function InFlight(active: map<nat, Call>): set<nat> {
    set id | id in active && active[id].counted && active[id].status != Finished
  }

  // The counter is the number of counted calls that are not over, and the cap holds.
  ghost predicate CallsOk(cfg: Config, c: Calls) {
    c.inFlight == |InFlight(c.active)| && c.inFlight <= cfg.maxConcurrentRequests
  }

  lemma AdmitKeeps(cfg: Config, c: Calls, id: nat, operation: Operation, status: CallStatus)
    requires CallsOk(cfg, c) && id !in c.active && status != Finished && c.inFlight < cfg.maxConcurrentRequests
    ensures CallsOk(cfg, AdmitCall(c, id, operation, status))
  {
    assert InFlight(AdmitCall(c, id, operation, status).active) == InFlight(c.active) + {id};
  }

  lemma StatusKeeps(cfg: Config, c: Calls, id: nat, status: CallStatus)
    requires CallsOk(cfg, c) && id in c.active && c.active[id].status != Finished && status != Finished
    ensures CallsOk(cfg, SetStatus(c, id, status))
  {
    assert InFlight(SetStatus(c, id, status).active) == InFlight(c.active);
  }

  lemma UncountedKeeps(cfg: Config, c: Calls, id: nat, call: Call)
    requires CallsOk(cfg, c) && id !in c.active && (!call.counted || call.status == Finished)
    ensures CallsOk(cfg, c.(active := c.active[id := call]))
  {
    assert InFlight(c.active[id := call]) == InFlight(c.active);
  }

  lemma FinishKeeps(cfg: Config, h: Host, id: nat)
    requires CallsOk(cfg, h.calls)
    ensures CallsOk(cfg, FinishCall(h, id).calls)
  {
    if id in h.calls.active && MayFinish(h.requests, h.calls.active[id].status) {
      var after := SetStatus(h.calls, id, Finished).active;
      if h.calls.active[id].counted {
        assert id in InFlight(h.calls.active);
        assert InFlight(after) == InFlight(h.calls.active) - {id};
      } else {
        assert InFlight(after) == InFlight(h.calls.active);
      }
    }
  }

  lemma BeginKeepsCalls(cfg: Config, h: Host, id: nat, operation: Operation, now: int, forked: bool)
    requires CallsOk(cfg, h.calls) && id !in h.calls.active
    ensures CallsOk(cfg, BeginRequest(cfg, h, id, operation, now, forked).calls)
  {
    UncountedKeeps(cfg, h.calls, id, Call(operation, true, Finished));
    if h.calls.inFlight < cfg.maxConcurrentRequests {
      AdmitKeeps(cfg, h.calls, id, operation, Unwinding);
      AdmitKeeps(cfg, h.calls, id, operation, Waiting(None));
      AdmitKeeps(cfg, h.calls, id, operation, Waiting(EnsureStarted(cfg, h, now, forked).startup.start));
    }
  }

  lemma GiveUpKeeps(cfg: Config, h: Host, id: nat)
    requires CallsOk(cfg, h.calls)
    ensures CallsOk(cfg, GiveUp(h, id).calls)
  {
    if id in h.calls.active && h.calls.active[id].status.Waiting? { StatusKeeps(cfg, h.calls, id, Unwinding); }
  }

  lemma ContinueKeeps(cfg: Config, h: Host, id: nat, request: nat, connected: bool, inTime: bool)
    requires CallsOk(cfg, h.calls)
    ensures CallsOk(cfg, ContinueRequest(h, id, request, connected, inTime).calls)
  {
    if MayContinue(h, id) {
      StatusKeeps(cfg, h.calls, id, Unwinding);
      StatusKeeps(cfg, h.calls, id, Registered(request));
    }
  }

  lemma AskKeepsCalls(cfg: Config, h: Host, id: nat, request: nat, connected: bool)
    requires CallsOk(cfg, h.calls)
    ensures CallsOk(cfg, AskClose(h, id, request, connected).calls)
  {
    if id !in h.calls.active { UncountedKeeps(cfg, h.calls, id, Call(CloseChild, false, Registered(request))); }
  }

  lemma StepKeepsCalls(cfg: Config, h: Host, s: Step)
    requires CallsOk(cfg, h.calls)
    ensures CallsOk(cfg, Apply(cfg, h, s).calls)
  {
    match s
    case Request(id, operation, now, forked) =>
      if id !in h.calls.active { BeginKeepsCalls(cfg, h, id, operation, now, forked); }
    case Continue(id, request, connected, inTime) => ContinueKeeps(cfg, h, id, request, connected, inTime);
    case DeadlineWhileWaiting(id) => GiveUpKeeps(cfg, h, id);
    case StartFailed(id) => GiveUpKeeps(cfg, h, id);
    case RunFinally(id) => FinishKeeps(cfg, h, id);
    case CloseAsk(id, request, connected) => AskKeepsCalls(cfg, h, id, request, connected);
    case Receive(_, _) =>
    case RequestTimer(_) =>
    case SendFailed(_) =>
    case _ =>
  }
}
