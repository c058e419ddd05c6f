// Startup of the graph child: single flight, the waiter, and readiness.
module HostStartup {
  import opened HostProtocol

  // An attempt that is still open is the single-flight start, its waiter is in
  // place, and it belongs to the current generation.
  ghost predicate AttemptOpen(u: Startup, i: nat)
    requires i < |u.attempts|
  {
    && u.start == Some(i)
    && u.waiter == Some(Waiter(u.generation, i))
    && u.attempts[i] == Starting(u.generation)
  }

  ghost predicate AttemptsOk(u: Startup) {
    && (u.start.Some? ==> u.start.value < |u.attempts|)
    && (forall i :: 0 <= i < |u.attempts| ==> (u.attempts[i].Starting? ==> AttemptOpen(u, i)))
  }

  // A waiter belongs to a living child; only a failed fork leaves one behind.
  ghost predicate WaiterOk(u: Startup) {
    u.waiter.Some? ==>
      && u.waiter.value.attempt < |u.attempts|
      && u.waiter.value.generation in u.launched
      && u.waiter.value.generation !in u.exitHandled
      && (u.child.Some? || u.closed)
      && (u.waiter.value.generation == u.generation || u.generation !in u.launched)
  }

  ghost predicate ChildrenOk(u: Startup) {
    && (forall g :: g in u.launched ==> 1 <= g <= u.generation)
    && u.exitHandled <= u.launched
    && u.identified <= u.launched
    && (u.closed ==> u.child.None?)
    && (u.child.Some? ==> u.child.value in u.launched)
    && (u.child == Some(u.generation) ==> u.generation !in u.exitHandled)
    && (u.ready ==> u.generation !in u.exitHandled && (u.child.Some? || u.closed))
  }

  ghost predicate StartupOk(u: Startup) {
    AttemptsOk(u) && WaiterOk(u) && ChildrenOk(u)
  }

  lemma RejectKeeps(u: Startup, g: nat)
    requires StartupOk(u)
    ensures StartupOk(RejectStartup(u, g))
    ensures !WaitsFor(RejectStartup(u, g), g)
  {
  }

  lemma ResolveKeeps(u: Startup, g: nat)
    requires StartupOk(u) && WaitsFor(u, g)
    ensures StartupOk(ResolveStartup(u, g))
  {
  }

  lemma TimeOutKeeps(u: Startup, g: nat)
    requires StartupOk(u) && WaitsFor(u, g)
    ensures StartupOk(TimeOutStartup(u, g))
  {
  }

  lemma UnreadyKeeps(u: Startup, g: nat)
    requires StartupOk(u)
    ensures StartupOk(Unready(u, g))
  {
    assert Unready(u, g).attempts == u.attempts;
  }

  lemma RefuseKeeps(u: Startup)
    requires StartupOk(u) && u.start.None?
    ensures StartupOk(RefuseStart(u))
  {
  }

  lemma FailForkKeeps(u: Startup)
    requires StartupOk(u) && u.start.None? && !u.ready
    ensures StartupOk(FailFork(u))
  {
  }

  lemma ForkKeeps(u: Startup)
    requires StartupOk(u) && u.start.None? && !u.closed
    ensures StartupOk(Fork(u))
  {
    var v := Fork(u);
    assert v.generation !in u.exitHandled;
    forall i | 0 <= i < |v.attempts| ensures v.attempts[i].Starting? ==> AttemptOpen(v, i) {
      if i < |u.attempts| { assert v.attempts[i] == u.attempts[i]; }
    }
  }

  lemma ExitKeeps(u: Startup, g: nat)
    requires StartupOk(u) && g in u.launched
    ensures StartupOk(ExitStartup(u, g))
  {
    RejectKeeps(u, g);
    var v := RejectStartup(u, g);
    ExitOfRejected(v, g);
  }

  lemma ExitOfRejected(v: Startup, g: nat)
    requires StartupOk(v) && g in v.launched && !WaitsFor(v, g)
    ensures var w := if g == v.generation then v.(ready := false, child := None) else v;
            StartupOk(w.(exitHandled := w.exitHandled + {g}))
  {
  }

  lemma ClearStartKeeps(u: Startup, i: nat)
    requires StartupOk(u) && u.start == Some(i) && AttemptSettled(u, i)
    ensures StartupOk(u.(start := None))
  {
  }

  lemma CloseKeeps(u: Startup)
    requires StartupOk(u)
    ensures StartupOk(u.(closed := true, ready := false, child := None))
  {
  }

  lemma StartChildKeeps(cfg: Config, h: Host, countRestart: bool, now: int, forked: bool)
    requires StartupOk(h.startup) && !h.startup.ready && !h.startup.closed
    ensures StartupOk(StartChild(cfg, h, countRestart, now, forked).startup)
  {
    if h.startup.start.None? {
      RefuseKeeps(h.startup);
      FailForkKeeps(h.startup);
      ForkKeeps(h.startup);
    }
  }

  lemma MessageKeeps(h: Host, g: nat, m: Message)
    requires StartupOk(h.startup)
    ensures StartupOk(HandleMessage(h, g, m).startup)
  {
    UnreadyKeeps(h.startup, g);
    if m.Malformed? || m.StartupError? || m.Ready? {
      RejectKeeps(h.startup, g);
      UnreadyKeeps(RejectStartup(h.startup, g), g);
      if WaitsFor(h.startup, g) { ResolveKeeps(h.startup, g); }
    }
  }

  lemma StepKeepsStartup(cfg: Config, h: Host, s: Step)
    requires StartupOk(h.startup)
    ensures StartupOk(Apply(cfg, h, s).startup)
  {
    match s
    case Open(now, forked) => if h == NewHost { StartChildKeeps(cfg, h, false, now, forked); }
    case Request(id, operation, now, forked) =>
      if id !in h.calls.active && !Refuses(h, now) && !IsReady(h.startup) {
        var h1 := if h.breaker.openUntil != 0 then h.(breaker := h.breaker.(openUntil := 0), lastFailure := None) else h;
        StartChildKeeps(cfg, h1, h1.startup.generation > 0, now, forked);
      }
    case Receive(g, m) => MessageKeeps(h, g, m);
    case Exit(g) => if g in h.startup.launched { ExitKeeps(h.startup, g); }
    case ChildError(g) => RejectKeeps(h.startup, g);
    case StderrFlood(g) => UnreadyKeeps(h.startup, g);
    case StartupTimer(g) =>
      if WaitsFor(h.startup, g) {
        TimeOutKeeps(h.startup, g);
        UnreadyKeeps(TimeOutStartup(h.startup, g), g);
      }
    case RequestTimer(request) =>
      if request in h.requests.pending { UnreadyKeeps(h.startup, h.requests.pending[request].generation); }
    case SendFailed(request) =>
      if request in h.requests.pending { UnreadyKeeps(h.startup, h.requests.pending[request].generation); }
    case RestartTick(g, now, forked) =>
      if g in h.startup.exitHandled && g == h.startup.generation && !h.startup.closed { StartChildKeeps(cfg, h, true, now, forked); }
    case ClearStart(i) => if h.startup.start == Some(i) && AttemptSettled(h.startup, i) { ClearStartKeeps(h.startup, i); }
    case CloseFinish => CloseKeeps(h.startup);
    case Activate =>
    case Continue(_, _, _, _) =>
    case DeadlineWhileWaiting(_) =>
    case StartFailed(_) =>
    case RunFinally(_) =>
    case CloseBegin =>
    case CloseAsk(_, _, _) =>
  }
}
