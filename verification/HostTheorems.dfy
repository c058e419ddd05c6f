// What holds over every run of the graph process host, from a new host.
module HostTheorems {
  import opened RestartLimiter
  import opened HostProtocol
  import opened HostStartup
  import opened HostRequests

  ghost predicate HostOk(cfg: Config, h: Host) {
    StartupOk(h.startup) && PendingOk(h) && CallsOk(cfg, h.calls)
  }

  lemma StepKeepsHost(cfg: Config, h: Host, s: Step)
    requires HostOk(cfg, h)
    ensures HostOk(cfg, Apply(cfg, h, s))
  {
    StepKeepsStartup(cfg, h, s);
    StepKeepsPending(cfg, h, s);
    StepKeepsCalls(cfg, h, s);
  }

  lemma {:induction false} RunKeepsHost(cfg: Config, h: Host, steps: seq<Step>)
    requires HostOk(cfg, h)
    ensures HostOk(cfg, HostProtocol.Run(cfg, h, steps))
    decreases |steps|
  {
    if steps != [] {
      StepKeepsHost(cfg, h, steps[0]);
      RunKeepsHost(cfg, Apply(cfg, h, steps[0]), steps[1..]);
    }
  }

  ghost predicate Reachable(cfg: Config, h: Host) {
    exists steps :: HostProtocol.Run(cfg, NewHost, steps) == h
  }

  lemma ReachableOk(cfg: Config, h: Host)
    requires Reachable(cfg, h)
    ensures HostOk(cfg, h)
  {
    var steps :| HostProtocol.Run(cfg, NewHost, steps) == h;
    assert InFlight(map[]) == {};
    RunKeepsHost(cfg, NewHost, steps);
  }

  // At most one start attempt is open, it is the one every caller shares, and its
  // waiter is in place and belongs to the current generation. So an unsettled
  // waiter is never replaced: a new one appears only when no attempt is open.
  lemma UnsettledWaiterIsCurrent(cfg: Config, h: Host, s: Step, i: nat)
    requires Reachable(cfg, h)
    requires i < |h.startup.attempts| && h.startup.attempts[i].Starting?
    ensures h.startup.start == Some(i)
    ensures h.startup.waiter == Some(Waiter(h.startup.generation, i))
    ensures h.startup.attempts[i] == Starting(h.startup.generation)
    ensures var u := Apply(cfg, h, s).startup;
      && i < |u.attempts|
      && (u.attempts[i].Starting? ==>
            u.waiter == h.startup.waiter && u.start == Some(i) && u.generation == h.startup.generation)
  {
    ReachableOk(cfg, h);
    assert AttemptOpen(h.startup, i);
    StepKeepsStartup(cfg, h, s);
    StepKeepsAttempts(cfg, h, s);
  }

  // Attempts are never withdrawn, and the generation of one never changes.
  ghost predicate AttemptsGrow(a: seq<Attempt>, b: seq<Attempt>) {
    |a| <= |b| && forall i :: 0 <= i < |a| ==> (b[i].Starting? ==> a[i] == b[i])
  }

  lemma StepKeepsAttempts(cfg: Config, h: Host, s: Step)
    ensures AttemptsGrow(h.startup.attempts, Apply(cfg, h, s).startup.attempts)
  {
    match s
    case Open(_, _) =>
    case Request(id, operation, now, forked) =>
      if id !in h.calls.active { BeginKeepsAttempts(cfg, h, id, operation, now, forked); }
    case Receive(g, m) => MessageKeepsAttempts(h, g, m);
    case RequestTimer(_) =>
    case SendFailed(_) =>
    case Exit(_) =>
    case RestartTick(_, _, _) =>
    case StartupTimer(_) =>
    case _ =>
  }

  lemma StartKeepsAttempts(cfg: Config, h: Host, now: int, forked: bool)
    ensures AttemptsGrow(h.startup.attempts, EnsureStarted(cfg, h, now, forked).startup.attempts)
  {
  }

  lemma BeginKeepsAttempts(cfg: Config, h: Host, id: nat, operation: Operation, now: int, forked: bool)
    ensures AttemptsGrow(h.startup.attempts, BeginRequest(cfg, h, id, operation, now, forked).startup.attempts)
  {
    StartKeepsAttempts(cfg, h, now, forked);
    var k := BeginRequest(cfg, h, id, operation, now, forked);
    assert k.startup == h.startup || k.startup == EnsureStarted(cfg, h, now, forked).startup;
  }

  lemma MessageKeepsAttempts(h: Host, g: nat, m: Message)
    ensures AttemptsGrow(h.startup.attempts, HandleMessage(h, g, m).startup.attempts)
  {
  }

  // `#ready` says that the current generation's exit has not been handled. So a
  // generation whose exit was handled is not ready, now or later.
  lemma ReadyMeansNotExited(cfg: Config, h: Host)
    requires Reachable(cfg, h)
    ensures h.startup.ready ==> h.startup.generation !in h.startup.exitHandled
    ensures h.startup.ready ==> h.startup.child.Some? || h.startup.closed
    ensures h.startup.child == Some(h.startup.generation) ==> h.startup.generation !in h.startup.exitHandled
    ensures h.startup.waiter.Some? ==> h.startup.waiter.value.generation !in h.startup.exitHandled
  {
    ReachableOk(cfg, h);
  }

  // A startup that takes too long is over for everybody who waits for it, although
  // its waiter stays.
  lemma StartupTimerSettles(cfg: Config, h: Host, g: nat)
    requires Reachable(cfg, h) && WaitsFor(h.startup, g)
    ensures var u := Apply(cfg, h, StartupTimer(g)).startup;
      && u.waiter == h.startup.waiter
      && (forall i :: 0 <= i < |u.attempts| ==> !u.attempts[i].Starting?)
  {
    ReachableOk(cfg, h);
    forall i | 0 <= i < |h.startup.attempts| && h.startup.attempts[i].Starting? ensures i == h.startup.waiter.value.attempt {
      assert AttemptOpen(h.startup, i);
    }
  }

  // What counts as a fault of one generation.
  predicate Faults(h: Host, s: Step, g: nat) {
    match s
    case Receive(x, m) => x == g && g in h.startup.launched && (m.Malformed? || m.StartupError? || m == Ready(false))
    case StderrFlood(x) => x == g && g in h.startup.launched
    case StartupTimer(x) => x == g && WaitsFor(h.startup, g)
    case RequestTimer(r) => r in h.requests.pending && h.requests.pending[r].generation == g
    case SendFailed(r) => r in h.requests.pending && h.requests.pending[r].generation == g
    case Exit(x) => x == g && g in h.startup.launched && g !in h.startup.exitHandled
    case _ => false
  }

  // After a fault of the current generation the host is not ready.
  lemma FaultDropsReadiness(cfg: Config, h: Host, s: Step)
    requires Reachable(cfg, h) && Faults(h, s, h.startup.generation)
    ensures !Apply(cfg, h, s).startup.ready
  {
    ReachableOk(cfg, h);
    match s
    case Receive(_, _) =>
    case StderrFlood(_) =>
    case StartupTimer(_) =>
    case RequestTimer(r) => assert r in h.requests.settled;
    case SendFailed(r) => assert r in h.requests.settled;
    case Exit(_) =>
  }

  // While the circuit is open no request starts a child, however many come.
  lemma {:induction false} OpenCircuitStartsNothing(cfg: Config, h: Host, steps: seq<Step>)
    requires !IsReady(h.startup)
    requires forall i :: 0 <= i < |steps| ==> steps[i].Request? && steps[i].now < h.breaker.openUntil
    ensures var k := HostProtocol.Run(cfg, h, steps); k.startup == h.startup && k.breaker == h.breaker
    decreases |steps|
  {
    if steps != [] {
      var s := steps[0];
      BlockedRequest(cfg, h, s.call, s.operation, s.now, s.forked);
      OpenCircuitStartsNothing(cfg, Apply(cfg, h, s), steps[1..]);
    }
  }

  lemma BlockedRequest(cfg: Config, h: Host, id: nat, operation: Operation, now: int, forked: bool)
    requires !IsReady(h.startup) && now < h.breaker.openUntil
    ensures var k := BeginRequest(cfg, h, id, operation, now, forked); k.startup == h.startup && k.breaker == h.breaker
  {
  }

  // Requests before `until`, and the clearing of settled start attempts.
  predicate CannotStart(s: Step, until: int) {
    (s.Request? && s.now < until) || s.ClearStart?
  }

  lemma {:induction false} CooldownStartsNothing(cfg: Config, h: Host, steps: seq<Step>)
    requires !IsReady(h.startup)
    requires forall i :: 0 <= i < |steps| ==> CannotStart(steps[i], h.breaker.openUntil)
    ensures var k := HostProtocol.Run(cfg, h, steps);
      k.startup.launched == h.startup.launched && k.startup.generation == h.startup.generation && k.breaker == h.breaker
    decreases |steps|
  {
    if steps != [] {
      var s := steps[0];
      if s.Request? { BlockedRequest(cfg, h, s.call, s.operation, s.now, s.forked); }
      CooldownStartsNothing(cfg, Apply(cfg, h, s), steps[1..]);
    }
  }

  // Once a restart is asked for while its window is full, no child is started for the
  // whole cooldown, however many requests come and whether or not the refused attempt
  // has been cleared.
  lemma FullWindowBlocksForCooldown(cfg: Config, h: Host, s: Step, steps: seq<Step>)
    requires !IsReady(h.startup) && Asked(cfg, h, s) != [] && !Admits(cfg.policy, h.breaker.restartTimes, Asked(cfg, h, s)[0])
    requires forall i :: 0 <= i < |steps| ==> CannotStart(steps[i], Asked(cfg, h, s)[0] + cfg.policy.cooldownMs)
    ensures var k := HostProtocol.Run(cfg, h, [s] + steps);
      k.startup.launched == h.startup.launched && k.startup.generation == h.startup.generation
      && k.breaker.restartCount == h.breaker.restartCount
  {
    var now := Asked(cfg, h, s)[0];
    var h1 := Apply(cfg, h, s);
    assert h1.startup.launched == h.startup.launched && h1.startup.generation == h.startup.generation;
    assert h1.breaker.openUntil == now + cfg.policy.cooldownMs && !IsReady(h1.startup);
    CooldownStartsNothing(cfg, h1, steps);
    assert ([s] + steps)[0] == s && ([s] + steps)[1..] == steps;
  }

  // ----- Requests over time ---------------------------------------------------

  // What a step leaves alone: a registration and a settled promise.
  ghost predicate Extends(q: Requests, k: Requests) {
    && (forall r :: r in q.registered ==> r in k.registered && k.registered[r] == q.registered[r])
    && (forall r :: r in q.settled ==> r in k.settled && q.settled[r] <= k.settled[r])
  }

  ghost predicate Later(h: Host, k: Host) {
    h.startup.exitHandled <= k.startup.exitHandled && Extends(h.requests, k.requests)
  }

  lemma SettleExtends(q: Requests, r: nat, s: Settlement)
    requires r in q.settled
    ensures Extends(q, Settle(q, r, s))
  {
  }

  lemma RejectExtends(q: Requests, hit: set<nat>, code: Code)
    ensures Extends(q, RejectIn(q, hit, code))
  {
  }

  lemma ResponseExtends(h: Host, g: nat, m: Message)
    requires m.Response?
    ensures Extends(h.requests, HandleResponse(h, g, m).requests)
  {
    if m.request in h.requests.pending && m.request in h.requests.settled {
      if h.requests.pending[m.request] != Pending(g, m.operation) {
        RejectExtends(h.requests, OfGeneration(h.requests.pending, g), ProtocolInvalid);
      } else {
        SettleExtends(h.requests, m.request,
          if !m.ok then Rejected(m.code) else if m.payloadValid then Resolved(g, m.operation) else Rejected(ProtocolInvalid));
      }
    }
  }

  lemma MessageExtends(h: Host, g: nat, m: Message)
    ensures Extends(h.requests, HandleMessage(h, g, m).requests)
  {
    match m
    case Malformed => RejectExtends(h.requests, OfGeneration(h.requests.pending, g), ProtocolInvalid);
    case Response(_, _, _, _, _) => ResponseExtends(h, g, m);
    case _ => assert HandleMessage(h, g, m).requests == h.requests;
  }

  lemma FailExtends(h: Host, r: nat, code: Code)
    ensures Extends(h.requests, FailRequest(h, r, code).requests)
  {
    if r in h.requests.settled { SettleExtends(h.requests, r, Rejected(code)); }
  }

  lemma RegisterExtends(q: Requests, r: nat, p: Pending)
    requires r !in q.registered && q.registered.Keys == q.settled.Keys
    ensures Extends(q, Register(q, r, p))
  {
  }

  lemma BeginExtends(cfg: Config, h: Host, id: nat, operation: Operation, now: int, forked: bool)
    ensures Later(h, BeginRequest(cfg, h, id, operation, now, forked))
  {
  }

  lemma ContinueExtends(h: Host, id: nat, request: nat, connected: bool, inTime: bool)
    requires h.requests.registered.Keys == h.requests.settled.Keys
    ensures Extends(h.requests, ContinueRequest(h, id, request, connected, inTime).requests)
  {
    if id in h.calls.active && request !in h.requests.registered {
      RegisterExtends(h.requests, request, Pending(h.startup.generation, h.calls.active[id].operation));
    }
  }

  lemma StepExtends(cfg: Config, h: Host, s: Step)
    requires PendingOk(h)
    ensures Extends(h.requests, Apply(cfg, h, s).requests)
  {
    if Settles(s) || s.Continue? || s.CloseAsk? { RequestStepExtends(cfg, h, s); } else { OtherStepExtends(cfg, h, s); }
  }

  // The steps that settle requests.
  predicate Settles(s: Step) {
    s.Receive? || s.RequestTimer? || s.SendFailed? || s.Exit? || s.CloseFinish?
  }

  lemma RequestStepExtends(cfg: Config, h: Host, s: Step)
    requires PendingOk(h) && (Settles(s) || s.Continue? || s.CloseAsk?)
    ensures Extends(h.requests, Apply(cfg, h, s).requests)
  {
    match s
    case Receive(g, m) => MessageExtends(h, g, m);
    case Continue(id, request, connected, inTime) => ContinueExtends(h, id, request, connected, inTime);
    case RequestTimer(r) => FailExtends(h, r, DeadlineExceeded);
    case SendFailed(r) => FailExtends(h, r, ChildExited);
    case Exit(g) => RejectExtends(h.requests, OfGeneration(h.requests.pending, g), ChildExited);
    case CloseAsk(_, request, _) =>
      if request !in h.requests.registered { RegisterExtends(h.requests, request, Pending(h.startup.generation, CloseChild)); }
    case CloseFinish => RejectExtends(h.requests, h.requests.pending.Keys, ChildExited);
  }

  lemma OtherStepExtends(cfg: Config, h: Host, s: Step)
    requires !Settles(s) && !s.Continue? && !s.CloseAsk?
    ensures Extends(h.requests, Apply(cfg, h, s).requests)
  {
    match s
    case Request(id, operation, now, forked) => BeginExtends(cfg, h, id, operation, now, forked);
    case Open(_, _) =>
    case RestartTick(_, _, _) =>
    case Activate =>
    case DeadlineWhileWaiting(_) =>
    case StartFailed(_) =>
    case RunFinally(_) =>
    case ChildError(_) =>
    case StderrFlood(_) =>
    case StartupTimer(_) =>
    case ClearStart(_) =>
    case CloseBegin =>
  }

  lemma StepKeepsExits(cfg: Config, h: Host, s: Step)
    ensures h.startup.exitHandled <= Apply(cfg, h, s).startup.exitHandled
  {
    match s
    case Request(id, operation, now, forked) => BeginExtends(cfg, h, id, operation, now, forked);
    case Receive(g, m) => assert HandleMessage(h, g, m).startup.exitHandled == h.startup.exitHandled;
    case Exit(g) =>
    case RequestTimer(_) =>
    case SendFailed(_) =>
    case RestartTick(_, _, _) =>
    case StartupTimer(_) =>
    case Open(_, _) =>
    case _ =>
  }

  lemma StepIsLater(cfg: Config, h: Host, s: Step)
    requires PendingOk(h)
    ensures Later(h, Apply(cfg, h, s))
  {
    StepExtends(cfg, h, s);
    StepKeepsExits(cfg, h, s);
  }

  lemma {:induction false} RunIsLater(cfg: Config, h: Host, steps: seq<Step>)
    requires HostOk(cfg, h)
    ensures Later(h, HostProtocol.Run(cfg, h, steps))
    decreases |steps|
  {
    if steps != [] {
      StepKeepsHost(cfg, h, steps[0]);
      StepIsLater(cfg, h, steps[0]);
      RunIsLater(cfg, Apply(cfg, h, steps[0]), steps[1..]);
      LaterChains(h, Apply(cfg, h, steps[0]), HostProtocol.Run(cfg, Apply(cfg, h, steps[0]), steps[1..]));
    }
  }

  lemma LaterChains(a: Host, b: Host, c: Host)
    requires Later(a, b) && Later(b, c)
    ensures Later(a, c)
  {
    forall r | r in a.requests.settled ensures r in c.requests.settled && a.requests.settled[r] <= c.requests.settled[r] {
      assert a.requests.settled[r] <= b.requests.settled[r] <= c.requests.settled[r];
    }
  }

  // Over every run: a registered request is settled exactly once and then stays
  // settled the same way for ever; it is out of the pending map exactly when it is
  // settled; and a resolution came from its own generation and operation.
  lemma EveryRequestSettledOnce(cfg: Config, h: Host, more: seq<Step>, r: nat)
    requires Reachable(cfg, h) && r in h.requests.registered
    ensures r in h.requests.settled && |h.requests.settled[r]| <= 1
    ensures r in h.requests.pending <==> h.requests.settled[r] == []
    ensures forall g, o :: h.requests.settled[r] == [Resolved(g, o)] ==> h.requests.registered[r] == Pending(g, o)
    ensures var k := HostProtocol.Run(cfg, h, more);
      && r in k.requests.settled
      && (h.requests.settled[r] != [] ==> k.requests.settled[r] == h.requests.settled[r] && r !in k.requests.pending)
  {
    ReachableOk(cfg, h);
    assert SettledOnce(h.requests, r);
    RunKeepsHost(cfg, h, more);
    RunIsLater(cfg, h, more);
    var k := HostProtocol.Run(cfg, h, more);
    assert SettledOnce(k.requests, r);
  }

  // Once a generation's exit was handled, none of its requests is pending, then or
  // at any later time.
  lemma NothingPendingAfterExit(cfg: Config, h: Host, more: seq<Step>, g: nat, r: nat)
    requires Reachable(cfg, h) && g in h.startup.exitHandled
    ensures var k := HostProtocol.Run(cfg, h, more);
            r in k.requests.pending ==> k.requests.pending[r].generation != g
  {
    ReachableOk(cfg, h);
    RunKeepsHost(cfg, h, more);
    RunIsLater(cfg, h, more);
  }

  // The counter equals the number of counted calls that are not over; it never
  // passes the cap and never goes below zero.
  lemma InFlightIsActiveCalls(cfg: Config, h: Host)
    requires Reachable(cfg, h)
    ensures 0 <= h.calls.inFlight <= cfg.maxConcurrentRequests
    ensures h.calls.inFlight == |set id | id in h.calls.active && h.calls.active[id].counted && h.calls.active[id].status != Finished|
  {
    ReachableOk(cfg, h);
    assert InFlight(h.calls.active) == set id | id in h.calls.active && h.calls.active[id].counted && h.calls.active[id].status != Finished;
  }

  // A response that the host accepts for this request.
  predicate Answers(h: Host, s: Step, r: nat)
    requires r in h.requests.pending
  {
    && s.Receive? && s.generation in h.startup.launched && s.message.Response?
    && s.message.request == r && s.message.ok && s.message.payloadValid
    && h.requests.pending[r] == Pending(s.generation, s.message.operation)
  }

  predicate IsResolved(q: Requests, r: nat) {
    r in q.settled && q.settled[r] != [] && q.settled[r][0].Resolved?
  }

  // Only the expected answer resolves: a step resolves a pending request exactly
  // when it is the receipt of a valid response with its id, from its own
  // generation and for its own operation.
  lemma OnlyTheMatchingResponseResolves(cfg: Config, h: Host, s: Step, r: nat)
    requires Reachable(cfg, h) && r in h.requests.pending
    ensures IsResolved(Apply(cfg, h, s).requests, r) <==> Answers(h, s, r)
  {
    ReachableOk(cfg, h);
    assert SettledOnce(h.requests, r);
    if Settles(s) { SettlingStepResolves(cfg, h, s, r); } else { OtherStepResolves(cfg, h, s, r); }
  }

  lemma SettlingStepResolves(cfg: Config, h: Host, s: Step, r: nat)
    requires PendingOk(h) && r in h.requests.pending && SettledOnce(h.requests, r) && Settles(s)
    ensures IsResolved(Apply(cfg, h, s).requests, r) <==> Answers(h, s, r)
  {
    match s
    case Receive(g, m) => MessageResolves(h, g, m, r);
    case RequestTimer(request) => assert request in h.requests.pending ==> SettledOnce(h.requests, request);
    case SendFailed(request) => assert request in h.requests.pending ==> SettledOnce(h.requests, request);
    case Exit(g) =>
    case CloseFinish =>
  }

  lemma OtherStepResolves(cfg: Config, h: Host, s: Step, r: nat)
    requires PendingOk(h) && r in h.requests.pending && SettledOnce(h.requests, r) && !Settles(s)
    ensures !IsResolved(Apply(cfg, h, s).requests, r)
  {
    match s
    case Request(id, operation, now, forked) =>
      if id !in h.calls.active { assert Apply(cfg, h, s).requests == h.requests; }
    case RestartTick(_, _, _) => assert Apply(cfg, h, s).requests == h.requests;
    case Continue(_, _, _, _) =>
    case CloseAsk(_, _, _) =>
    case StartupTimer(_) =>
    case _ =>
  }

  lemma MessageResolves(h: Host, g: nat, m: Message, r: nat)
    requires PendingOk(h) && r in h.requests.pending && SettledOnce(h.requests, r)
    ensures IsResolved(HandleMessage(h, g, m).requests, r) <==>
      m.Response? && m.request == r && m.ok && m.payloadValid && h.requests.pending[r] == Pending(g, m.operation)
  {
  }

  // A request's own timer always ends it, whatever else happened before.
  lemma TimerAlwaysSettles(cfg: Config, h: Host, r: nat)
    requires Reachable(cfg, h) && r in h.requests.registered
    ensures var k := Apply(cfg, h, RequestTimer(r)).requests;
      && r !in k.pending && r in k.settled && |k.settled[r]| == 1
      && (r in h.requests.pending ==> k.settled[r] == [Rejected(DeadlineExceeded)])
  {
    ReachableOk(cfg, h);
    assert SettledOnce(h.requests, r);
    StepKeepsHost(cfg, h, RequestTimer(r));
    assert SettledOnce(Apply(cfg, h, RequestTimer(r)).requests, r);
  }

  // ----- Readiness and identity -----------------------------------------------

  // A failed fork after a startup timeout leaves the old waiter behind.
  predicate Leftover(u: Startup) {
    u.waiter.Some? && u.waiter.value.generation != u.generation
  }

  // Ready although the current generation never presented its identity.
  predicate Unproven(u: Startup) {
    u.ready && u.generation !in u.identified
  }

  lemma MessageIdentity(h: Host, g: nat, m: Message)
    requires StartupOk(h.startup) && !Unproven(h.startup) && g in h.startup.launched
    ensures Unproven(HandleMessage(h, g, m).startup) <==>
      Leftover(h.startup) && WaitsFor(h.startup, g) && m == Ready(true)
  {
  }

  lemma BeginIdentity(cfg: Config, h: Host, id: nat, operation: Operation, now: int, forked: bool)
    requires StartupOk(h.startup) && !Unproven(h.startup)
    ensures !Unproven(BeginRequest(cfg, h, id, operation, now, forked).startup)
  {
  }

  // `#ready` is raised for a generation that did not present the expected identity
  // exactly when a waiter was left behind and its late ready message arrives.
  lemma UnprovenExactlyAfterLateReady(cfg: Config, h: Host, s: Step)
    requires Reachable(cfg, h) && !Unproven(h.startup)
    ensures Unproven(Apply(cfg, h, s).startup) <==>
      Leftover(h.startup) && s == Receive(h.startup.waiter.value.generation, Ready(true))
  {
    ReachableOk(cfg, h);
    match s
    case Open(_, _) =>
    case Request(id, operation, now, forked) => BeginIdentity(cfg, h, id, operation, now, forked);
    case Receive(g, m) => if g in h.startup.launched { MessageIdentity(h, g, m); }
    case RestartTick(_, _, _) =>
    case Exit(_) =>
    case StartupTimer(_) =>
    case RequestTimer(_) =>
    case SendFailed(_) =>
    case _ =>
  }

  predicate Forks(s: Step) {
    match s
    case Open(_, forked) => forked
    case Request(_, _, _, forked) => forked
    case RestartTick(_, _, forked) => forked
    case _ => true
  }

  // The step asks for a child and gets past the single flight and the limiter.
  predicate Launches(cfg: Config, h: Host, s: Step) {
    match s
    case Open(_, _) => h == NewHost
    case Request(id, _, now, _) =>
      && id !in h.calls.active && h.calls.inFlight < cfg.maxConcurrentRequests
      && !Refuses(h, now) && !IsReady(h.startup) && h.startup.start.None?
      && (h.startup.generation > 0 ==> Admits(cfg.policy, h.breaker.restartTimes, now))
    case RestartTick(g, now, _) =>
      && g in h.startup.exitHandled && g == h.startup.generation && h.activated
      && !h.startup.closed && !h.closing && h.startup.start.None?
      && Admits(cfg.policy, h.breaker.restartTimes, now)
    case _ => false
  }

  // A waiter is left behind exactly when one is in place, the step launches, and
  // fork() throws.
  lemma LeftoverExactlyAfterFailedFork(cfg: Config, h: Host, s: Step)
    requires Reachable(cfg, h) && !Leftover(h.startup)
    ensures Leftover(Apply(cfg, h, s).startup) <==> h.startup.waiter.Some? && Launches(cfg, h, s) && !Forks(s)
  {
    ReachableOk(cfg, h);
    match s
    case Open(now, forked) =>
    case Request(id, operation, now, forked) =>
      if id !in h.calls.active { BeginLeftover(cfg, h, id, operation, now, forked); }
    case Receive(g, m) => MessageLeftover(h, g, m);
    case RestartTick(_, now, forked) => StartLeftover(cfg, h, true, now, forked);
    case Exit(_) =>
    case StartupTimer(_) =>
    case RequestTimer(_) =>
    case SendFailed(_) =>
    case _ =>
  }

  lemma StartLeftover(cfg: Config, h: Host, countRestart: bool, now: int, forked: bool)
    requires !Leftover(h.startup)
    ensures Leftover(StartChild(cfg, h, countRestart, now, forked).startup) <==>
      h.startup.waiter.Some? && h.startup.start.None? && !forked
      && (countRestart ==> Admits(cfg.policy, h.breaker.restartTimes, now))
  {
  }

  lemma BeginLeftover(cfg: Config, h: Host, id: nat, operation: Operation, now: int, forked: bool)
    requires !Leftover(h.startup) && id !in h.calls.active
    ensures Leftover(BeginRequest(cfg, h, id, operation, now, forked).startup) <==>
      h.startup.waiter.Some? && Launches(cfg, h, Request(id, operation, now, forked)) && !forked
  {
    var h1 := if h.breaker.openUntil != 0 then h.(breaker := h.breaker.(openUntil := 0), lastFailure := None) else h;
    StartLeftover(cfg, h1, h1.startup.generation > 0, now, forked);
  }

  lemma MessageLeftover(h: Host, g: nat, m: Message)
    requires !Leftover(h.startup)
    ensures !Leftover(HandleMessage(h, g, m).startup)
    ensures HandleMessage(h, g, m).startup.generation == h.startup.generation
  {
  }

  lemma StepWithForkLeavesNothing(cfg: Config, h: Host, s: Step)
    requires Reachable(cfg, h) && !Leftover(h.startup) && Forks(s)
    ensures !Leftover(Apply(cfg, h, s).startup)
  {
    LeftoverExactlyAfterFailedFork(cfg, h, s);
  }

  lemma {:induction false} RunAppend(cfg: Config, h: Host, a: seq<Step>, b: seq<Step>)
    ensures HostProtocol.Run(cfg, h, a + b) == HostProtocol.Run(cfg, HostProtocol.Run(cfg, h, a), b)
    decreases |a|
  {
    if a == [] {
      assert a + b == b;
    } else {
      assert (a + b)[1..] == a[1..] + b;
      RunAppend(cfg, Apply(cfg, h, a[0]), a[1..], b);
    }
  }

  lemma StepReachable(cfg: Config, h: Host, s: Step)
    requires Reachable(cfg, h)
    ensures Reachable(cfg, Apply(cfg, h, s))
  {
    var steps :| HostProtocol.Run(cfg, NewHost, steps) == h;
    RunAppend(cfg, NewHost, steps, [s]);
    assert HostProtocol.Run(cfg, Apply(cfg, h, s), []) == Apply(cfg, h, s);
    assert HostProtocol.Run(cfg, h, [s]) == Apply(cfg, h, s);
  }

  // While fork() does not throw, `#ready` means in every reachable state that the
  // current generation presented the expected identity and has not exited.
  lemma {:induction false} ReadyMeansIdentified(cfg: Config, steps: seq<Step>)
    requires forall i :: 0 <= i < |steps| ==> Forks(steps[i])
    ensures var u := HostProtocol.Run(cfg, NewHost, steps).startup;
            u.ready ==> u.generation in u.identified && u.generation !in u.exitHandled
  {
    assert HostProtocol.Run(cfg, NewHost, []) == NewHost;
    IdentifiedFrom(cfg, NewHost, steps);
  }

  lemma {:induction false} IdentifiedFrom(cfg: Config, h: Host, steps: seq<Step>)
    requires Reachable(cfg, h) && !Leftover(h.startup) && !Unproven(h.startup)
    requires forall i :: 0 <= i < |steps| ==> Forks(steps[i])
    ensures var u := HostProtocol.Run(cfg, h, steps).startup;
            u.ready ==> u.generation in u.identified && u.generation !in u.exitHandled
    decreases |steps|
  {
    if steps == [] {
      ReadyMeansNotExited(cfg, h);
    } else {
      var s := steps[0];
      StepReachable(cfg, h, s);
      StepWithForkLeavesNothing(cfg, h, s);
      UnprovenExactlyAfterLateReady(cfg, h, s);
      IdentifiedFrom(cfg, Apply(cfg, h, s), steps[1..]);
    }
  }

  // The run that breaks it: the first start times out, the retry's fork() throws,
  // and the first child's ready message comes late.
  lemma LateReadyAfterFailedFork(cfg: Config)
    requires cfg.policy.maxRestarts > 0 && cfg.maxConcurrentRequests > 0
    ensures Unproven(HostProtocol.Run(cfg, NewHost,
      [Open(0, true), StartupTimer(1), ClearStart(0), Request(0, Health, 0, false), Receive(1, Ready(true))]).startup)
  {
    var h1 := Apply(cfg, NewHost, Open(0, true));
    var h2 := Apply(cfg, h1, StartupTimer(1));
    var h3 := Apply(cfg, h2, ClearStart(0));
    var h4 := Apply(cfg, h3, Request(0, Health, 0, false));
    var h5 := Apply(cfg, h4, Receive(1, Ready(true)));
    assert h3.startup.start == None && h3.startup.waiter == Some(Waiter(1, 0));
    assert h4.startup.generation == 2 && h4.startup.waiter == Some(Waiter(1, 0));
    assert Unproven(h5.startup);
    RunFive(cfg, NewHost, Open(0, true), StartupTimer(1), ClearStart(0), Request(0, Health, 0, false), Receive(1, Ready(true)));
  }

  lemma RunFive(cfg: Config, h: Host, a: Step, b: Step, c: Step, d: Step, e: Step)
    ensures HostProtocol.Run(cfg, h, [a, b, c, d, e])
         == Apply(cfg, Apply(cfg, Apply(cfg, Apply(cfg, Apply(cfg, h, a), b), c), d), e)
  {
    RunAppend(cfg, h, [a, b, c], [d, e]);
    assert [a, b, c] + [d, e] == [a, b, c, d, e];
    RunThree(cfg, h, a, b, c);
    RunAppend(cfg, HostProtocol.Run(cfg, h, [a, b, c]), [d], [e]);
    assert [d] + [e] == [d, e];
  }

  lemma RunThree(cfg: Config, h: Host, a: Step, b: Step, c: Step)
    ensures HostProtocol.Run(cfg, h, [a, b, c]) == Apply(cfg, Apply(cfg, Apply(cfg, h, a), b), c)
  {
    RunAppend(cfg, h, [a, b], [c]);
    assert [a, b] + [c] == [a, b, c];
    RunAppend(cfg, h, [a], [b]);
    assert [a] + [b] == [a, b];
  }

  // ----- Restarts -------------------------------------------------------------

  // The clock readings at which a step asks the limiter, if it does.
  function Asked(cfg: Config, h: Host, s: Step): seq<int> {
    match s
    case Request(id, operation, now, forked) =>
      if id !in h.calls.active && h.calls.inFlight < cfg.maxConcurrentRequests && !Refuses(h, now)
        && !IsReady(h.startup) && h.startup.start.None? && h.startup.generation > 0 then [now] else []
    case RestartTick(g, now, forked) =>
      if g in h.startup.exitHandled && g == h.startup.generation && h.activated && !h.startup.closed
        && !h.closing && h.startup.start.None? then [now] else []
    case _ => []
  }

  function AllAsked(cfg: Config, h: Host, steps: seq<Step>): seq<int>
    decreases |steps|
  {
    if steps == [] then [] else Asked(cfg, h, steps[0]) + AllAsked(cfg, Apply(cfg, h, steps[0]), steps[1..])
  }

  lemma StepAsks(cfg: Config, h: Host, r: RestartLimiter.Run, s: Step)
    requires r.queue == h.breaker.restartTimes && |r.history| == h.breaker.restartCount
    ensures var k := Apply(cfg, h, s).breaker;
            var q := AskAll(cfg.policy, r, Asked(cfg, h, s));
            k.restartTimes == q.queue && k.restartCount == |q.history|
  {
    match s
    case Request(id, operation, now, forked) =>
      if id !in h.calls.active { BeginAsks(cfg, h, r, id, operation, now, forked); }
    case RestartTick(_, now, _) =>
      if Asked(cfg, h, s) != [] { AskOne(cfg.policy, r, now); }
    case Receive(g, m) => assert HandleMessage(h, g, m).breaker == h.breaker;
    case Open(_, _) =>
    case _ =>
  }

  lemma AskOne(p: Policy, r: RestartLimiter.Run, now: int)
    ensures AskAll(p, r, [now]) == Ask(p, r, now)
  {
    assert AskAll(p, Ask(p, r, now), []) == Ask(p, r, now);
  }

  lemma StartAsks(cfg: Config, h: Host, r: RestartLimiter.Run, countRestart: bool, now: int, forked: bool)
    requires r.queue == h.breaker.restartTimes && |r.history| == h.breaker.restartCount
    ensures var k := StartChild(cfg, h, countRestart, now, forked).breaker;
            var q := if countRestart && h.startup.start.None? then Ask(cfg.policy, r, now) else r;
            k.restartTimes == q.queue && k.restartCount == |q.history|
  {
  }

  lemma BeginAsks(cfg: Config, h: Host, r: RestartLimiter.Run, id: nat, operation: Operation, now: int, forked: bool)
    requires r.queue == h.breaker.restartTimes && |r.history| == h.breaker.restartCount
    requires id !in h.calls.active
    ensures var k := BeginRequest(cfg, h, id, operation, now, forked).breaker;
            var q := AskAll(cfg.policy, r, Asked(cfg, h, Request(id, operation, now, forked)));
            k.restartTimes == q.queue && k.restartCount == |q.history|
  {
    var h1 := if h.breaker.openUntil != 0 then h.(breaker := h.breaker.(openUntil := 0), lastFailure := None) else h;
    StartAsks(cfg, h1, r, h1.startup.generation > 0, now, forked);
    AskOne(cfg.policy, r, now);
  }

  lemma {:induction false} AskAllAppend(p: Policy, r: RestartLimiter.Run, a: seq<int>, b: seq<int>)
    ensures AskAll(p, r, a + b) == AskAll(p, AskAll(p, r, a), b)
    decreases |a|
  {
    if a == [] {
      assert a + b == b;
    } else {
      assert (a + b)[1..] == a[1..] + b;
      AskAllAppend(p, Ask(p, r, a[0]), a[1..], b);
    }
  }

  lemma {:induction false} RunAsks(cfg: Config, h: Host, r: RestartLimiter.Run, steps: seq<Step>)
    requires r.queue == h.breaker.restartTimes && |r.history| == h.breaker.restartCount
    ensures var k := HostProtocol.Run(cfg, h, steps).breaker;
            var q := AskAll(cfg.policy, r, AllAsked(cfg, h, steps));
            k.restartTimes == q.queue && k.restartCount == |q.history|
    decreases |steps|
  {
    if steps != [] {
      StepAsks(cfg, h, r, steps[0]);
      var q := AskAll(cfg.policy, r, Asked(cfg, h, steps[0]));
      RunAsks(cfg, Apply(cfg, h, steps[0]), q, steps[1..]);
      AskAllAppend(cfg.policy, r, Asked(cfg, h, steps[0]), AllAsked(cfg, Apply(cfg, h, steps[0]), steps[1..]));
    }
  }

  // Over every run of the host whose clock does not go back, no closed interval as
  // long as the window holds more restarts than the policy admits. The restarts
  // are the admitted ones among the readings at which the host asked, and the
  // host's own counter and queue agree with them.
  lemma RestartsNeverExceedWindow(cfg: Config, steps: seq<Step>, from: int)
    requires NonDecreasing(AllAsked(cfg, NewHost, steps))
    ensures var q := AskAll(cfg.policy, Fresh, AllAsked(cfg, NewHost, steps));
            var k := HostProtocol.Run(cfg, NewHost, steps).breaker;
      && CountWithin(q.history, from, from + cfg.policy.windowMs) <= cfg.policy.maxRestarts
      && k.restartCount == |q.history|
      && k.restartTimes == q.queue
  {
    WindowNeverExceeded(cfg.policy, AllAsked(cfg, NewHost, steps), from);
    RunAsks(cfg, NewHost, Fresh, steps);
  }
}
