// What becomes of a lock that no call at work holds: one that a refused call left behind,
// or one whose process died before it had written itself into it.
module LedgerLocks {
  import opened LedgerProtocol
  import opened LedgerSafety
  import opened LedgerTheorems
  import Steps = OperatorActionLedger

  // The lock is on disk, and no call that could release it is at work.
  ghost predicate Stranded(w: World, k: string) {
    && k in w.disk.confirmationLocks
    && forall id :: id in w.calls && Conf(w.calls[id]) == k ==> !Active(w.calls[id].pc)
  }

  ghost predicate NotInUse(c: Call, k: string) {
    Conf(c) == k ==> !Active(c.pc)
  }

  ghost predicate SameLock(w: World, w': World, k: string) {
    k in w.disk.confirmationLocks && k in w'.disk.confirmationLocks && w'.disk.confirmationLocks[k] == w.disk.confirmationLocks[k]
  }

  lemma CallbackLeavesLock(w: World, id: nat, a: Action, k: string)
    requires id in w.calls && k in w.disk.confirmationLocks && !LockAction(a)
    ensures SameLock(w, Do(w, id, a), k)
    ensures !Active(w.calls[id].pc) ==> Do(w, id, a) == w
  {
  }

  lemma LockActionLeavesLock(w: World, id: nat, a: Action, k: string)
    requires id in w.calls && k in w.disk.confirmationLocks && LockAction(a) && NotInUse(w.calls[id], k)
    ensures SameLock(w, Do(w, id, a), k)
    ensures Conf(w.calls[id]) == k ==> !Active(Do(w, id, a).calls[id].pc)
  {
    if a.CreateConfirmationLock? || a.OwnConfirmationLock? || a.ClearConfirmationTemp? || a.FailConfirmationLock? || a.ReleaseConfirmationLock? {
      ConfirmationLockAction(w, id, a, k);
    }
  }

  lemma ConfirmationLockAction(w: World, id: nat, a: Action, k: string)
    requires id in w.calls && k in w.disk.confirmationLocks && NotInUse(w.calls[id], k)
    requires a.CreateConfirmationLock? || a.OwnConfirmationLock? || a.ClearConfirmationTemp? || a.FailConfirmationLock? || a.ReleaseConfirmationLock?
    ensures SameLock(w, Do(w, id, a), k)
    ensures Conf(w.calls[id]) == k ==> !Active(Do(w, id, a).calls[id].pc)
  {
  }

  lemma ActionLeavesStranded(w: World, id: nat, a: Action, k: string)
    requires id in w.calls && k in w.disk.confirmationLocks && NotInUse(w.calls[id], k)
    ensures SameLock(w, Do(w, id, a), k)
    ensures Conf(w.calls[id]) == k ==> !Active(Do(w, id, a).calls[id].pc)
  {
    if LockAction(a) { LockActionLeavesLock(w, id, a, k); } else { CallbackLeavesLock(w, id, a, k); }
  }

  // The step is a recovery that may remove the lock.
  predicate RecoversConfirmation(w: World, s: Step, k: string)
    requires k in w.disk.confirmationLocks
  {
    && s.RecoverConfirmationLock? && s.confirmationId == k
    && Stale(w.disk.confirmationLocks[k], s.pid, s.now, s.minimumAge) && s.pid !in w.live
  }

  // Of all steps of all calls and processes, only a recovery removes a stranded lock:
  // one that expects the owner it names, when it is old enough and that owner is dead.
  // Every other step leaves it as it is, and stranded.
  lemma StrandedRemovedExactly(w: World, s: Step, k: string)
    requires Stranded(w, k)
    ensures k !in Apply(w, s).disk.confirmationLocks <==> RecoversConfirmation(w, s, k)
    ensures !RecoversConfirmation(w, s, k) ==> Stranded(Apply(w, s), k) && SameLock(w, Apply(w, s), k)
  {
    if s.Act? && s.call in w.calls {
      Steps.ActionTouchesOneCall(w, s.call, s.action);
      ActionLeavesStranded(w, s.call, s.action, k);
    }
  }

  // Over every run in which that process does not die, the lock stays; so no call with
  // this confirmation gets anywhere: whatever it does, it is idle, refused or dead.
  lemma {:induction false} StrandedUntilItsProcessDies(w: World, steps: seq<Step>, k: string)
    requires Stranded(w, k) && w.disk.confirmationLocks[k].Held? && w.disk.confirmationLocks[k].pid in w.live
    requires forall i :: 0 <= i < |steps| ==> steps[i] != Crash(w.disk.confirmationLocks[k].pid)
    ensures Stranded(Run(w, steps), k) && Run(w, steps).disk.confirmationLocks[k] == w.disk.confirmationLocks[k]
    decreases |steps|
  {
    if steps != [] {
      StrandedRemovedExactly(w, steps[0], k);
      LiveUnlessCrashed(w, steps[0], w.disk.confirmationLocks[k].pid);
      StrandedUntilItsProcessDies(Apply(w, steps[0]), steps[1..], k);
    }
  }

  lemma LiveUnlessCrashed(w: World, s: Step, pid: nat)
    requires pid in w.live && s != Crash(pid)
    ensures pid in Apply(w, s).live
  {
    if s.Act? && s.call in w.calls { Steps.ActionTouchesOneCall(w, s.call, s.action); }
  }

  // ----- Locks that name nobody ----------------------------------------------------------

  // A lock file without an owner cannot be recovered: over every run it stays for ever,
  // and no call with this confirmation gets to work again.
  lemma {:induction false} PartialConfirmationLockStays(w: World, steps: seq<Step>, k: string)
    requires Stranded(w, k) && w.disk.confirmationLocks[k].Partial?
    ensures Stranded(Run(w, steps), k) && Run(w, steps).disk.confirmationLocks[k].Partial?
    decreases |steps|
  {
    if steps != [] {
      StrandedRemovedExactly(w, steps[0], k);
      PartialConfirmationLockStays(Apply(w, steps[0]), steps[1..], k);
    }
  }

  // The same of an operation's lock, and calls past the attempt to take it.
  ghost predicate StrandedOperation(w: World, op: string) {
    && op in w.disk.operationLocks
    && forall id :: id in w.calls && Op(w.calls[id]) == op ==> !HoldsOperation(w.calls[id].pc)
  }

  ghost predicate SameOperationLock(w: World, w': World, op: string) {
    op in w.disk.operationLocks && op in w'.disk.operationLocks && w'.disk.operationLocks[op] == w.disk.operationLocks[op]
  }

  predicate RecoversOperation(w: World, s: Step, op: string)
    requires op in w.disk.operationLocks
  {
    && s.RecoverOperationLock? && s.operationId == op
    && Stale(w.disk.operationLocks[op], s.pid, s.now, s.minimumAge) && s.pid !in w.live
  }

  lemma LockActionOutside(w: World, id: nat, a: Action, op: string)
    requires id in w.calls && op in w.disk.operationLocks && LockAction(a)
    requires Op(w.calls[id]) == op ==> !HoldsOperation(w.calls[id].pc)
    ensures SameOperationLock(w, Do(w, id, a), op)
    ensures Op(w.calls[id]) == op ==> !HoldsOperation(Do(w, id, a).calls[id].pc)
  {
    if a.CreateOperationLock? || a.OwnOperationLock? || a.ClearOperationTemps? || a.FailOperationLock? || a.ReleaseOperationLock? {
      OperationLockAction(w, id, a, op);
    }
  }

  lemma OperationLockAction(w: World, id: nat, a: Action, op: string)
    requires id in w.calls && op in w.disk.operationLocks
    requires a.CreateOperationLock? || a.OwnOperationLock? || a.ClearOperationTemps? || a.FailOperationLock? || a.ReleaseOperationLock?
    requires Op(w.calls[id]) == op ==> !HoldsOperation(w.calls[id].pc)
    ensures SameOperationLock(w, Do(w, id, a), op)
    ensures Op(w.calls[id]) == op ==> !HoldsOperation(Do(w, id, a).calls[id].pc)
  {
  }

  lemma CallbackOutside(w: World, id: nat, a: Action, op: string)
    requires id in w.calls && op in w.disk.operationLocks && !LockAction(a)
    ensures SameOperationLock(w, Do(w, id, a), op)
    ensures !HoldsOperation(w.calls[id].pc) ==> Do(w, id, a) == w
  {
  }

  lemma StrandedOperationRemovedExactly(w: World, s: Step, op: string)
    requires StrandedOperation(w, op)
    ensures op !in Apply(w, s).disk.operationLocks <==> RecoversOperation(w, s, op)
    ensures !RecoversOperation(w, s, op) ==> StrandedOperation(Apply(w, s), op) && SameOperationLock(w, Apply(w, s), op)
  {
    if s.Act? && s.call in w.calls {
      Steps.ActionTouchesOneCall(w, s.call, s.action);
      if LockAction(s.action) { LockActionOutside(w, s.call, s.action, op); } else { CallbackOutside(w, s.call, s.action, op); }
    }
  }

  lemma {:induction false} PartialOperationLockStays(w: World, steps: seq<Step>, op: string)
    requires StrandedOperation(w, op) && w.disk.operationLocks[op].Partial?
    ensures StrandedOperation(Run(w, steps), op) && Run(w, steps).disk.operationLocks[op].Partial?
    decreases |steps|
  {
    if steps != [] {
      StrandedOperationRemovedExactly(w, steps[0], op);
      PartialOperationLockStays(Apply(w, steps[0]), steps[1..], op);
    }
  }

  // A process that dies right after it has created a lock file leaves such a lock.
  lemma DeathAfterCreateIsForEver(w: World, id: nat, after: seq<Step>)
    requires Reachable(w) && id in w.calls && w.calls[id].pc == Idle && Conf(w.calls[id]) !in w.disk.confirmationLocks
    ensures var w' := Run(w, [Act(id, CreateConfirmationLock), Crash(w.calls[id].pid)] + after);
      Stranded(w', Conf(w.calls[id])) && w'.disk.confirmationLocks[Conf(w.calls[id])].Partial?
  {
    var k, pid := Conf(w.calls[id]), w.calls[id].pid;
    ReachableInvariant(w);
    assert LockOk(w, w.calls[id]);
    forall i | i in w.calls ensures NotInUse(w.calls[i], k) { assert LockOk(w, w.calls[i]); }
    TwoSteps(w, Act(id, CreateConfirmationLock), Crash(pid), after);
    PartialConfirmationLockStays(Apply(Apply(w, Act(id, CreateConfirmationLock)), Crash(pid)), after, k);
  }

  lemma DeathAfterOperationCreateIsForEver(w: World, id: nat, after: seq<Step>)
    requires Reachable(w) && id in w.calls && w.calls[id].pc == ConfirmationReady && Op(w.calls[id]) !in w.disk.operationLocks
    ensures var w' := Run(w, [Act(id, CreateOperationLock), Crash(w.calls[id].pid)] + after);
      StrandedOperation(w', Op(w.calls[id])) && w'.disk.operationLocks[Op(w.calls[id])].Partial?
  {
    var op, pid := Op(w.calls[id]), w.calls[id].pid;
    ReachableInvariant(w);
    assert LockOk(w, w.calls[id]);
    forall i | i in w.calls && Op(w.calls[i]) == op ensures !HoldsOperation(w.calls[i].pc) { assert LockOk(w, w.calls[i]); }
    TwoSteps(w, Act(id, CreateOperationLock), Crash(pid), after);
    PartialOperationLockStays(Apply(Apply(w, Act(id, CreateOperationLock)), Crash(pid)), after, op);
  }

  lemma TwoSteps(w: World, a: Step, b: Step, after: seq<Step>)
    ensures Run(w, [a, b] + after) == Run(Apply(Apply(w, a), b), after)
  {
    var steps := [a, b] + after;
    assert steps[0] == a && steps[1..][0] == b && steps[1..][1..] == after;
  }

  // ----- A run that strands one --------------------------------------------------------

  lemma Next(w: World, s: Step) returns (w': World)
    requires Reachable(w)
    ensures Reachable(w') && w' == Apply(w, s)
  {
    StepReachable(w, s);
    w' := Apply(w, s);
  }

  lemma Locked(w: World, id: nat, at: int) returns (w': World)
    requires Reachable(w) && id in w.calls && w.calls[id].pc == Idle && Conf(w.calls[id]) !in w.disk.confirmationLocks
    ensures Reachable(w')
    ensures w' == At(w.(disk := w.disk.(
      confirmationLocks := w.disk.confirmationLocks[Conf(w.calls[id]) := Held(w.calls[id].pid, at)],
      consumptionTemps := w.disk.consumptionTemps - {Conf(w.calls[id])})), id, ConfirmationReady)
  {
    w' := Next(w, Act(id, CreateConfirmationLock));
    w' := Next(w', Act(id, OwnConfirmationLock(at)));
    w' := Next(w', Act(id, ClearConfirmationTemp));
  }

  // Every call that finds its confirmation lock free and its operation lock taken
  // strands the confirmation lock.
  lemma RefusedCallStrandsItsLock(w: World, id: nat, at: int) returns (w': World)
    requires Reachable(w) && id in w.calls && w.calls[id].pc == Idle
    requires Conf(w.calls[id]) !in w.disk.confirmationLocks && Op(w.calls[id]) in w.disk.operationLocks
    requires forall i :: i in w.calls ==> NotInUse(w.calls[i], Conf(w.calls[id]))
    ensures Reachable(w') && w'.live == w.live && id in w'.calls && w'.calls[id].pc == Ended(Failed)
    ensures w'.calls == w.calls[id := w.calls[id].(pc := Ended(Failed))]
    ensures Stranded(w', Conf(w.calls[id])) && w'.disk.confirmationLocks[Conf(w.calls[id])] == Held(w.calls[id].pid, at)
  {
    w' := Locked(w, id, at);
    w' := Next(w', Act(id, CreateOperationLock));
  }

  // A first call at work on the operation, and a second one about to begin.
  lemma FirstCallAtWork(intent: Intent, first: Confirmation, second: Confirmation, trust: Trust, now: int, pid: nat)
    returns (w: World)
    requires first.id != second.id
    ensures Reachable(w) && w.live == {pid}
    ensures w.calls == map[1 := Call(pid, intent, first, trust, now, OperationLockCreated), 2 := Call(pid, intent, second, trust, now, Idle)]
    ensures intent.operationId in w.disk.operationLocks && second.id !in w.disk.confirmationLocks
  {
    w := EmptyWorld();
    assert Run(w, []) == w;
    w := Next(w, Spawn(pid));
    w := Next(w, Begin(1, pid, intent, first, trust, now));
    w := Locked(w, 1, now);
    w := Next(w, Act(1, CreateOperationLock));
    w := Next(w, Begin(2, pid, intent, second, trust, now));
  }

  // Two calls of one live process for one operation, with two confirmations: a
  // reachable world in which the second has ended and its confirmation is stranded.
  lemma SecondConfirmationIsStranded(intent: Intent, first: Confirmation, second: Confirmation, trust: Trust, now: int, pid: nat)
    returns (w: World)
    requires first.id != second.id
    ensures Reachable(w) && pid in w.live
    ensures w.calls == map[1 := Call(pid, intent, first, trust, now, OperationLockCreated), 2 := Call(pid, intent, second, trust, now, Ended(Failed))]
    ensures Stranded(w, second.id) && w.disk.confirmationLocks[second.id] == Held(pid, now)
  {
    w := FirstCallAtWork(intent, first, second, trust, now, pid);
    w := RefusedCallStrandsItsLock(w, 2, now);
  }

  // ----- Failing, crashing, recovering ------------------------------------------------------

  // A call that cannot complete a lock it has created fails, and the lock goes exactly
  // when it can be unlinked.
  lemma ConfirmationLockFailureExactly(w: World, id: nat, unlinked: bool)
    requires id in w.calls
    ensures var c := w.calls[id]; var a := Do(w, id, FailConfirmationLock(unlinked));
      if c.pc.ConfirmationLockCreated? || c.pc.ConfirmationLockOwned? then
        && a.calls == w.calls[id := c.(pc := Ended(Failed))]
        && a.disk.confirmationLocks == w.disk.confirmationLocks - (if unlinked then {c.confirmation.id} else {})
      else a == w
  {
    assert w.disk.confirmationLocks - {} == w.disk.confirmationLocks;
  }

  lemma OperationLockFailureExactly(w: World, id: nat, unlinked: bool)
    requires id in w.calls
    ensures var c := w.calls[id]; var a := Do(w, id, FailOperationLock(unlinked));
      if c.pc.OperationLockCreated? || c.pc.OperationLockOwned? then
        && a.calls == w.calls[id := c.(pc := Ended(Failed))]
        && a.disk.operationLocks == w.disk.operationLocks - (if unlinked then {c.intent.operationId} else {})
      else a == w
  {
    assert w.disk.operationLocks - {} == w.disk.operationLocks;
  }

  // Releasing removes the lock exactly when it can be unlinked, and otherwise fails the
  // call, whatever it had come to.
  lemma OperationReleaseExactly(w: World, id: nat, unlinked: bool)
    requires id in w.calls
    ensures var c := w.calls[id]; var a := Do(w, id, ReleaseOperationLock(unlinked));
      if c.pc.ReleasingOperation? then
        && a.calls == w.calls[id := c.(pc := ReleasingConfirmation(if unlinked then c.pc.outcome else Failed))]
        && a.disk.operationLocks == w.disk.operationLocks - (if unlinked then {c.intent.operationId} else {})
      else a == w
  {
    assert w.disk.operationLocks - {} == w.disk.operationLocks;
  }

  lemma ConfirmationReleaseExactly(w: World, id: nat, unlinked: bool)
    requires id in w.calls
    ensures var c := w.calls[id]; var a := Do(w, id, ReleaseConfirmationLock(unlinked));
      if c.pc.ReleasingConfirmation? then
        && a.calls == w.calls[id := c.(pc := Ended(if unlinked then c.pc.outcome else Failed))]
        && a.disk.confirmationLocks == w.disk.confirmationLocks - (if unlinked then {c.confirmation.id} else {})
      else a == w
  {
    assert w.disk.confirmationLocks - {} == w.disk.confirmationLocks;
  }

  // A process that dies takes exactly its own calls with it that have not ended, and
  // leaves the disk and the outside world as they are.
  lemma CrashExactly(w: World, pid: nat, id: nat)
    requires pid in w.live && id in w.calls
    ensures var v := Apply(w, Crash(pid));
      && v.disk == w.disk && v.done == w.done && v.effects == w.effects && v.receipts == w.receipts
      && v.live == w.live - {pid} && v.calls.Keys == w.calls.Keys
      && (w.calls[id].pid != pid || w.calls[id].pc.Ended? ==> v.calls[id] == w.calls[id])
      && (w.calls[id].pid == pid && !w.calls[id].pc.Ended? ==> v.calls[id] == w.calls[id].(pc := Crashed))
  {
  }

  // A recovery removes the lock of an operation exactly when it names the expected owner,
  // that owner is dead, and it is at least as old as was asked for, which is more than
  // nothing; the first five temporary files of the operation go with it. Otherwise it
  // changes nothing.
  lemma OperationRecoveredExactly(w: World, op: string, pid: nat, now: int, minimumAge: int)
    ensures var v := Apply(w, RecoverOperationLock(op, pid, now, minimumAge));
      && (op in w.disk.operationLocks ==> (op !in v.disk.operationLocks <==>
            && w.disk.operationLocks[op] == Held(pid, HeldSince(w.disk.operationLocks[op])) && pid !in w.live
            && 0 < minimumAge && HeldSince(w.disk.operationLocks[op]) + minimumAge <= now))
      && (op in v.disk.operationLocks || op !in w.disk.operationLocks ==> v == w)
      && (v != w ==> forall n :: 1 <= n <= 5 ==> (op, n) !in v.disk.recordTemps)
  {
  }

  function HeldSince(l: Lock): int {
    if l.Held? then l.acquiredAt else 0
  }

  lemma ConfirmationRecoveredExactly(w: World, k: string, pid: nat, now: int, minimumAge: int)
    ensures var v := Apply(w, RecoverConfirmationLock(k, pid, now, minimumAge));
      && (k in w.disk.confirmationLocks ==> (k !in v.disk.confirmationLocks <==>
            && w.disk.confirmationLocks[k] == Held(pid, HeldSince(w.disk.confirmationLocks[k])) && pid !in w.live
            && 0 < minimumAge && HeldSince(w.disk.confirmationLocks[k]) + minimumAge <= now))
      && (k in v.disk.confirmationLocks || k !in w.disk.confirmationLocks ==> v == w)
      && (v != w ==> k !in v.disk.consumptionTemps)
  {
  }
}
