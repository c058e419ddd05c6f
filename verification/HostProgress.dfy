// What the host does when nothing goes wrong: children are started, requests are sent
// and answered, and the host closes.
module HostProgress {
  import opened RestartLimiter
  import opened HostProtocol
  import opened HostRequests
  import opened HostTheorems

  // ----- Single steps ---------------------------------------------------------------------

  // A call that waits goes on when its start attempt, if it has one, has succeeded.
  predicate MayGoOn(h: Host, id: nat) {
    && id in h.calls.active && h.calls.active[id].status.Waiting?
    && match h.calls.active[id].status.attempt
       case None => true
       case Some(a) => a < |h.startup.attempts| && h.startup.attempts[a].Started?
  }

  // The request is registered, and sent, exactly when its identifier is new, the call may
  // go on, the host has a ready and connected child, is not closing, and there is time
  // left; a call that may go on and meets anything else throws.
  lemma RegisteredExactly(cfg: Config, h: Host, id: nat, request: nat, connected: bool, inTime: bool)
    ensures var k := Apply(cfg, h, Continue(id, request, connected, inTime));
      var goesOn := MayGoOn(h, id) && request !in h.requests.registered;
      if goesOn && h.startup.ready && h.startup.child.Some? && connected && !h.closing && inTime then
        && k.requests.pending == h.requests.pending[request := Pending(h.startup.generation, h.calls.active[id].operation)]
        && k.requests.settled == h.requests.settled[request := []]
        && k.requests.registered == h.requests.registered[request := Pending(h.startup.generation, h.calls.active[id].operation)]
        && k.calls.active[id] == h.calls.active[id].(status := Registered(request))
      else
        && k.requests == h.requests
        && (goesOn ==> k.calls.active[id] == h.calls.active[id].(status := Unwinding))
        && (!goesOn ==> k == h)
  {
  }

  // A child of the next generation, not ready, with a waiter and an open attempt.
  predicate NewChild(u: Startup, v: Startup) {
    var g := u.generation + 1;
    && v.launched == u.launched + {g} && v.generation == g && v.child == Some(g) && !v.ready
    && v.waiter == Some(Waiter(g, |u.attempts|))
    && v.attempts == u.attempts + [Starting(g)] && v.start == Some(|u.attempts|)
  }

  lemma StartedExactly(cfg: Config, h: Host, countRestart: bool, now: int, forked: bool)
    ensures var v := StartChild(cfg, h, countRestart, now, forked).startup;
      if h.startup.start.None? && (countRestart ==> Admits(cfg.policy, h.breaker.restartTimes, now)) && forked
      then NewChild(h.startup, v) else v.launched == h.startup.launched
  {
  }

  lemma BegunExactly(cfg: Config, h: Host, id: nat, operation: Operation, now: int, forked: bool)
    requires id !in h.calls.active
    ensures var v := BeginRequest(cfg, h, id, operation, now, forked).startup;
      if Launches(cfg, h, Request(id, operation, now, forked)) && forked then NewChild(h.startup, v) else v.launched == h.startup.launched
  {
    var h1 := if h.breaker.openUntil != 0 then h.(breaker := h.breaker.(openUntil := 0), lastFailure := None) else h;
    StartedExactly(cfg, h1, h1.startup.generation > 0, now, forked);
  }

  // A step starts a child exactly when it launches and fork() does not throw.
  lemma ChildStartedExactly(cfg: Config, h: Host, s: Step)
    ensures if Launches(cfg, h, s) && Forks(s) then NewChild(h.startup, Apply(cfg, h, s).startup)
            else Apply(cfg, h, s).startup.launched == h.startup.launched
  {
    match s
    case Open(now, forked) => StartedExactly(cfg, h, false, now, forked);
    case Request(id, operation, now, forked) => if id !in h.calls.active { BegunExactly(cfg, h, id, operation, now, forked); }
    case RestartTick(_, now, forked) => StartedExactly(cfg, h, true, now, forked);
    case _ => OthersStartNothing(cfg, h, s);
  }

  lemma OthersStartNothing(cfg: Config, h: Host, s: Step)
    requires !s.Open? && !s.Request? && !s.RestartTick?
    ensures Apply(cfg, h, s).startup.launched == h.startup.launched
  {
    match s
    case Receive(_, _) =>
    case _ =>
  }

  // A new call is turned away when the host is full; else it takes a place, and waits
  // unless the host is closed, closing, or not ready behind an open circuit.
  lemma AdmittedExactly(cfg: Config, h: Host, id: nat, operation: Operation, now: int, forked: bool)
    requires id !in h.calls.active
    ensures var k := Apply(cfg, h, Request(id, operation, now, forked));
      var ready := h.startup.ready && h.startup.child.Some?;
      && id in k.calls.active && k.calls.active[id].operation == operation
      && (if h.calls.inFlight >= cfg.maxConcurrentRequests then
            k.calls.active[id].status == Finished && k.calls.inFlight == h.calls.inFlight && k.startup == h.startup
          else
            && k.calls.inFlight == h.calls.inFlight + 1
            && (if h.startup.closed || h.closing || (!ready && h.breaker.openUntil > now) then
                  k.calls.active[id].status == Unwinding && k.startup == h.startup
                else if ready then k.calls.active[id].status == Waiting(None) && k.startup == h.startup
                else k.calls.active[id].status == Waiting(k.startup.start) && k.startup.start.Some?))
  {
  }

  // A start attempt in place is shared.
  lemma AttemptIsShared(cfg: Config, h: Host, id: nat, operation: Operation, now: int, forked: bool)
    requires id !in h.calls.active && h.startup.start.Some? && !(h.startup.ready && h.startup.child.Some?)
    ensures Apply(cfg, h, Request(id, operation, now, forked)).startup == h.startup
  {
  }

  // An exit rejects exactly the requests of its generation that are still pending, as
  // exited; closing rejects all of them; a failed send its own.
  lemma RejectedExactly(cfg: Config, h: Host, s: Step, r: nat)
    requires Reachable(cfg, h) && r in h.requests.pending
    ensures var k := Apply(cfg, h, s).requests;
      && r in k.settled
      && (s.Exit? && s.generation in h.startup.launched && s.generation !in h.startup.exitHandled ==>
            if h.requests.pending[r].generation == s.generation
            then r !in k.pending && k.settled[r] == [Rejected(ChildExited)]
            else r in k.pending && k.settled[r] == [])
      && (s.SendFailed? && s.request == r ==> r !in k.pending && k.settled[r] == [Rejected(ChildExited)])
      && (s.RequestTimer? && s.request == r ==> r !in k.pending && k.settled[r] == [Rejected(DeadlineExceeded)])
      && (s.CloseFinish? && h.closing ==> r !in k.pending && k.settled[r] == [Rejected(ChildExited)])
  {
    PendingIsUnsettled(cfg, h, r);
    StepReachable(cfg, h, s);
    StaysSettled(cfg, h, s, r);
  }

  lemma StaysSettled(cfg: Config, h: Host, s: Step, r: nat)
    requires Reachable(cfg, h) && r in h.requests.pending
    ensures r in Apply(cfg, h, s).requests.settled
  {
    ReachableOk(cfg, h);
    StepExtends(cfg, h, s);
    assert r in h.requests.settled;
  }

  lemma PendingIsUnsettled(cfg: Config, h: Host, r: nat)
    requires Reachable(cfg, h) && r in h.requests.pending
    ensures r in h.requests.settled && h.requests.settled[r] == []
  {
    ReachableOk(cfg, h);
    assert r in h.requests.registered;
    assert SettledOnce(h.requests, r);
  }

  // ----- Whole runs -----------------------------------------------------------------------

  lemma RunCons(cfg: Config, h: Host, s: Step, rest: seq<Step>)
    ensures HostProtocol.Run(cfg, h, [s] + rest) == HostProtocol.Run(cfg, Apply(cfg, h, s), rest)
  {
    assert ([s] + rest)[0] == s && ([s] + rest)[1..] == rest;
  }

  // A call that the host has registered, with its child ready and nothing else pending.
  predicate Sent(h: Host, g: nat, id: nat, operation: Operation, request: nat) {
    && h.startup.ready && h.startup.generation == g && h.startup.child == Some(g) && g in h.startup.launched
    && g in h.startup.identified && !h.startup.closed && !h.closing
    && id in h.calls.active && h.calls.active[id] == Call(operation, true, Registered(request))
    && h.requests.pending == map[request := Pending(g, operation)]
    && request in h.requests.settled && h.requests.settled[request] == [] && h.calls.inFlight == 1
  }

  // Opened, ready, asked, registered.
  lemma OpenedAndAsked(cfg: Config, operation: Operation, now: int, request: nat) returns (h: Host)
    requires cfg.maxConcurrentRequests > 0
    ensures h == HostProtocol.Run(cfg, NewHost,
      [Open(now, true), Receive(1, Ready(true)), Request(0, operation, now, true), Continue(0, request, true, true)])
    ensures Sent(h, 1, 0, operation, request)
  {
    var h1 := Apply(cfg, NewHost, Open(now, true));
    assert h1.startup.waiter == Some(Waiter(1, 0)) && h1.startup.launched == {1};
    var h2 := Apply(cfg, h1, Receive(1, Ready(true)));
    assert h2.startup.ready && h2.startup.child == Some(1) && h2.startup.identified == {1};
    var h3 := Apply(cfg, h2, Request(0, operation, now, true));
    assert h3.calls.active[0] == Call(operation, true, Waiting(None)) && h3.requests == h2.requests;
    h := Apply(cfg, h3, Continue(0, request, true, true));
    RunFour(cfg, NewHost, Open(now, true), Receive(1, Ready(true)), Request(0, operation, now, true), Continue(0, request, true, true));
  }

  lemma RunFour(cfg: Config, h: Host, a: Step, b: Step, c: Step, d: Step)
    ensures HostProtocol.Run(cfg, h, [a, b, c, d]) == Apply(cfg, Apply(cfg, Apply(cfg, Apply(cfg, h, a), b), c), d)
  {
    RunThree(cfg, h, a, b, c);
    RunAppend(cfg, h, [a, b, c], [d]);
    assert [a, b, c] + [d] == [a, b, c, d];
    assert HostProtocol.Run(cfg, HostProtocol.Run(cfg, h, [a, b, c]), [d]) == Apply(cfg, HostProtocol.Run(cfg, h, [a, b, c]), d) by {
      RunCons(cfg, HostProtocol.Run(cfg, h, [a, b, c]), d, []);
      assert [d] + [] == [d];
    }
  }

  lemma RunTwo(cfg: Config, h: Host, a: Step, b: Step)
    ensures HostProtocol.Run(cfg, h, [a, b]) == Apply(cfg, Apply(cfg, h, a), b)
  {
    assert [a, b] == [a] + [b] && [b] == [b] + [];
    RunCons(cfg, h, a, [b]);
    RunCons(cfg, Apply(cfg, h, a), b, []);
  }

  // From opening the host to the answer: the request is resolved by its response, the
  // call is over, and its place is free again.
  lemma RequestIsAnswered(cfg: Config, operation: Operation, now: int, request: nat, code: Code)
    requires cfg.maxConcurrentRequests > 0
    ensures var h := HostProtocol.Run(cfg, NewHost,
      [Open(now, true), Receive(1, Ready(true)), Request(0, operation, now, true), Continue(0, request, true, true)]
      + [Receive(1, Response(request, operation, true, code, true)), RunFinally(0)]);
      && h.requests.pending == map[] && request in h.requests.settled && h.requests.settled[request] == [Resolved(1, operation)]
      && 0 in h.calls.active && h.calls.active[0].status == Finished && h.calls.inFlight == 0 && h.startup.ready
  {
    var h4 := OpenedAndAsked(cfg, operation, now, request);
    var first := [Open(now, true), Receive(1, Ready(true)), Request(0, operation, now, true), Continue(0, request, true, true)];
    RunAppend(cfg, NewHost, first, [Receive(1, Response(request, operation, true, code, true)), RunFinally(0)]);
    RunTwo(cfg, h4, Receive(1, Response(request, operation, true, code, true)), RunFinally(0));
    AnsweredAndOver(cfg, h4, 1, 0, operation, request, code);
  }

  lemma AnsweredAndOver(cfg: Config, h: Host, g: nat, id: nat, operation: Operation, request: nat, code: Code)
    requires Sent(h, g, id, operation, request)
    ensures var k := Apply(cfg, Apply(cfg, h, Receive(g, Response(request, operation, true, code, true))), RunFinally(id));
      && k.requests.pending == map[] && request in k.requests.settled && k.requests.settled[request] == [Resolved(g, operation)]
      && id in k.calls.active && k.calls.active[id].status == Finished && k.calls.inFlight == 0 && k.startup.ready
  {
    var h1 := Apply(cfg, h, Receive(g, Response(request, operation, true, code, true)));
    assert h1.requests.pending == map[] && h1.requests.settled[request] == [Resolved(g, operation)];
    assert h1.calls == h.calls && h1.startup == h.startup;
  }

  // After its child has died the next call starts another one, if the limiter admits it,
  // waits for it, and is sent to it.
  lemma RequestRestarts(cfg: Config, h: Host, id: nat, operation: Operation, now: int, request: nat)
    requires Idle(h) && id !in h.calls.active && request !in h.requests.registered && request !in h.requests.pending
    requires h.calls.inFlight < cfg.maxConcurrentRequests && Admits(cfg.policy, h.breaker.restartTimes, now) && h.breaker.openUntil <= now
    ensures var g := h.startup.generation + 1;
      var k := HostProtocol.Run(cfg, h, [Request(id, operation, now, true), Receive(g, Ready(true)), Continue(id, request, true, true)]);
      && k.startup.ready && k.startup.child == Some(g) && k.startup.generation == g && g in k.startup.identified
      && request in k.requests.pending && k.requests.pending[request] == Pending(g, operation)
      && k.breaker.restartCount == h.breaker.restartCount + 1 && k.breaker.openUntil == 0
  {
    var g := h.startup.generation + 1;
    RunThree(cfg, h, Request(id, operation, now, true), Receive(g, Ready(true)), Continue(id, request, true, true));
    var h1 := Apply(cfg, h, Request(id, operation, now, true));
    var a := |h.startup.attempts|;
    assert h1.startup == Fork(h.startup) && h1.calls.active[id] == Call(operation, true, Waiting(Some(a)));
    var h2 := Apply(cfg, h1, Receive(g, Ready(true)));
    assert h2.startup.ready && h2.startup.child == Some(g) && h2.startup.attempts[a] == Started(g);
    assert h2.calls == h1.calls && h2.requests == h.requests;
    assert MayGoOn(h2, id);
    RegisteredExactly(cfg, h2, id, request, true, true);
  }

  // A host whose child is gone, with no attempt in place.
  predicate Idle(h: Host) {
    && !h.startup.closed && !h.closing && !h.startup.ready && h.startup.start.None? && h.startup.generation > 0
    && h.startup.waiter.None?
  }

  // Closing a ready host: the child is asked to close and answers, and nothing is left.
  lemma CloseIsAnswered(cfg: Config, h: Host, id: nat, request: nat, code: Code)
    requires h.startup.ready && h.startup.child == Some(h.startup.generation) && h.startup.generation in h.startup.launched
    requires !h.startup.closed && !h.closing && h.requests.pending == map[]
    requires id !in h.calls.active && request !in h.requests.registered && request !in h.requests.settled
    ensures var g := h.startup.generation;
      var k := HostProtocol.Run(cfg, h,
        [CloseBegin, CloseAsk(id, request, true), Receive(g, Response(request, CloseChild, true, code, true)), CloseFinish]);
      && k.startup.closed && !k.startup.ready && k.startup.child.None? && !k.closing
      && request in k.requests.settled && k.requests.settled[request] == [Resolved(g, CloseChild)] && k.requests.pending == map[]
  {
    var g := h.startup.generation;
    RunFour(cfg, h, CloseBegin, CloseAsk(id, request, true), Receive(g, Response(request, CloseChild, true, code, true)), CloseFinish);
    var h1 := Apply(cfg, h, CloseBegin);
    var h2 := Apply(cfg, h1, CloseAsk(id, request, true));
    assert h2.requests.pending == map[request := Pending(g, CloseChild)] && h2.requests.settled[request] == [];
    var h3 := Apply(cfg, h2, Receive(g, Response(request, CloseChild, true, code, true)));
    assert h3.requests.pending == map[] && h3.requests.settled[request] == [Resolved(g, CloseChild)];
    var h4 := Apply(cfg, h3, CloseFinish);
    assert h4.requests.settled[request] == [Resolved(g, CloseChild)];
  }
}
