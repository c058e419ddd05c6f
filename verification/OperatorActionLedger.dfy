// The ledger directory as an object whose methods change files, and
// executeConfirmedOperatorAction as code over it. Each method is proved to be
// the corresponding step, or run of steps, of the protocol.
module OperatorActionLedger {
  import opened LedgerProtocol
  import opened LedgerSafety
  import opened LedgerTheorems

  class Ledger {
    var consumptions: map<string, Consumption>
    var records: map<string, Record>
    var consumptionTemps: map<string, Consumption>
    var recordTemps: map<(string, nat), Record>
    var confirmationLocks: map<string, Lock>
    var operationLocks: map<string, Lock>

    ghost function Contents(): Disk
      reads this
    {
      Disk(consumptions, records, consumptionTemps, recordTemps, confirmationLocks, operationLocks)
    }

    constructor ()
      ensures Contents() == EmptyWorld().disk
    {
      consumptions, records, consumptionTemps, recordTemps := map[], map[], map[], map[];
      confirmationLocks, operationLocks := map[], map[];
    }

    method Read(operationId: string) returns (r: Option<Record>)
      ensures r == if operationId in records then Some(records[operationId]) else None
    {
      if operationId in records { r := Some(records[operationId]); } else { r := None; }
    }

    method ReadConfirmation(confirmationId: string) returns (r: Option<Consumption>)
      ensures r == if confirmationId in consumptions then Some(consumptions[confirmationId]) else None
    {
      if confirmationId in consumptions { r := Some(consumptions[confirmationId]); } else { r := None; }
    }

    // Exclusive creation of the lock file, the owner's entry, and the removal of a
    // consumption file left half-written by an earlier holder.
    method AcquireConfirmationLock(confirmationId: string, pid: nat, acquiredAt: int) returns (acquired: bool)
      modifies this
      ensures acquired == (confirmationId !in old(confirmationLocks))
      ensures !acquired ==> Contents() == old(Contents())
      ensures acquired ==> Contents() == old(Contents()).(
        confirmationLocks := old(confirmationLocks)[confirmationId := Held(pid, acquiredAt)],
        consumptionTemps := old(consumptionTemps) - {confirmationId})
    {
      if confirmationId in confirmationLocks { return false; }
      confirmationLocks := confirmationLocks[confirmationId := Partial];
      confirmationLocks := confirmationLocks[confirmationId := Held(pid, acquiredAt)];
      consumptionTemps := consumptionTemps - {confirmationId};
      acquired := true;
    }

    method AcquireOperationLock(operationId: string, pid: nat, acquiredAt: int) returns (acquired: bool)
      modifies this
      ensures acquired == (operationId !in old(operationLocks))
      ensures !acquired ==> Contents() == old(Contents())
      ensures acquired ==> Contents() == old(Contents()).(
        operationLocks := old(operationLocks)[operationId := Held(pid, acquiredAt)],
        recordTemps := WithoutTemps(old(recordTemps), operationId))
    {
      if operationId in operationLocks { return false; }
      operationLocks := operationLocks[operationId := Partial];
      operationLocks := operationLocks[operationId := Held(pid, acquiredAt)];
      RemoveOperationTemporaryFiles(operationId);
      acquired := true;
    }

    method RemoveOperationTemporaryFiles(operationId: string)
      modifies this`recordTemps
      ensures recordTemps == WithoutTemps(old(recordTemps), operationId)
    {
      var sequence := 1;
      while sequence <= 5
        invariant 1 <= sequence <= 6
        invariant forall k :: k in recordTemps <==> k in old(recordTemps) && !(k.0 == operationId && 1 <= k.1 < sequence)
        invariant forall k :: k in recordTemps ==> recordTemps[k] == old(recordTemps)[k]
      {
        recordTemps := recordTemps - {(operationId, sequence)};
        sequence := sequence + 1;
      }
    }

    method ReleaseOperationLock(operationId: string)
      modifies this`operationLocks
      ensures operationLocks == old(operationLocks) - {operationId}
    {
      operationLocks := operationLocks - {operationId};
    }

    method ReleaseConfirmationLock(confirmationId: string)
      modifies this`confirmationLocks
      ensures confirmationLocks == old(confirmationLocks) - {confirmationId}
    {
      confirmationLocks := confirmationLocks - {confirmationId};
    }

    // Recovery of a lock that is old enough and whose owner is gone, in a world that
    // the ledger is the disk of and `ownerNotLive` tells the truth about. False where
    // the source throws. Each is the protocol's recovery step.
    method RecoverStaleLock(
      operationId: string, expectedProcessId: nat, ownerNotLive: nat -> bool, now: int, minimumAge: int, ghost w: World)
      returns (ok: bool)
      requires w.disk == Contents() && (ownerNotLive(expectedProcessId) <==> expectedProcessId !in w.live)
      modifies this
      ensures w.(disk := Contents()) == Apply(w, RecoverOperationLock(operationId, expectedProcessId, now, minimumAge))
      ensures ok <==> operationId !in operationLocks
      ensures Reachable(w) ==> Reachable(w.(disk := Contents()))
    {
      StepReachable(w, RecoverOperationLock(operationId, expectedProcessId, now, minimumAge));
      if operationId !in operationLocks { return true; }
      var lock := operationLocks[operationId];
      if !Stale(lock, expectedProcessId, now, minimumAge) || !ownerNotLive(lock.pid) { return false; }
      RemoveOperationTemporaryFiles(operationId);
      operationLocks := operationLocks - {operationId};
      ok := true;
    }

    method RecoverStaleConfirmationLock(
      confirmationId: string, expectedProcessId: nat, ownerNotLive: nat -> bool, now: int, minimumAge: int, ghost w: World)
      returns (ok: bool)
      requires w.disk == Contents() && (ownerNotLive(expectedProcessId) <==> expectedProcessId !in w.live)
      modifies this
      ensures w.(disk := Contents()) == Apply(w, RecoverConfirmationLock(confirmationId, expectedProcessId, now, minimumAge))
      ensures ok <==> confirmationId !in confirmationLocks
      ensures Reachable(w) ==> Reachable(w.(disk := Contents()))
    {
      StepReachable(w, RecoverConfirmationLock(confirmationId, expectedProcessId, now, minimumAge));
      if confirmationId !in confirmationLocks { return true; }
      var lock := confirmationLocks[confirmationId];
      if !Stale(lock, expectedProcessId, now, minimumAge) || !ownerNotLive(lock.pid) { return false; }
      consumptionTemps := consumptionTemps - {confirmationId};
      confirmationLocks := confirmationLocks - {confirmationId};
      ok := true;
    }

    method BindConfirmation(intent: Intent, confirmation: Confirmation, authorizedAt: int) returns (ok: bool)
      modifies this
      ensures ok == (confirmation.id !in old(consumptionTemps))
      ensures !ok ==> Contents() == old(Contents())
      ensures ok ==> Contents() == old(Contents()).(
        consumptions := old(consumptions)[confirmation.id := ConsumptionOf(intent, confirmation, authorizedAt)])
    {
      if confirmation.id in consumptionTemps { return false; }
      ghost var temps := consumptionTemps;
      consumptionTemps := consumptionTemps[confirmation.id := ConsumptionOf(intent, confirmation, authorizedAt)];
      consumptions := consumptions[confirmation.id := consumptionTemps[confirmation.id]];
      consumptionTemps := consumptionTemps - {confirmation.id};
      assert consumptionTemps == temps;
      ok := true;
    }

    // None where the schema rejects the record or the temporary file exists.
    method Write(operationId: string, record: Record) returns (ok: bool)
      modifies this
      ensures ok == (Shaped(record) && (operationId, record.sequence) !in old(recordTemps))
      ensures !ok ==> Contents() == old(Contents())
      ensures ok ==> Contents() == old(Contents()).(records := old(records)[operationId := record])
    {
      var temporary := (operationId, record.sequence);
      if !Shaped(record) || temporary in recordTemps { return false; }
      ghost var temps := recordTemps;
      recordTemps := recordTemps[temporary := record];
      records := records[operationId := recordTemps[temporary]];
      recordTemps := recordTemps - {temporary};
      assert recordTemps == temps;
      ok := true;
    }
  }

  // The world outside the ledger, as the callbacks of one call reach it.
  class Outside {
    var done: map<string, string>
    ghost var effects: seq<EffectEvent>
    var receipts: seq<Receipt>

    constructor ()
      ensures done == map[] && effects == [] && receipts == []
    {
      done, effects, receipts := map[], [], [];
    }
  }

  // How the callbacks of one call answer. No effect result means that the effect
  // throws before it changes anything.
  datatype Callbacks = Callbacks(
    validBefore: bool, digest: string, validAtEffect: bool, effect: Option<string>, receiptAccepted: bool)

  // ----- What a call comes to, said of what it finds -------------------------------------

  // What is on disk of the operation and of the confirmation belongs to this intent
  // and this confirmation, and no record is without its consumption.
  predicate Owned(d: Disk, c: Call) {
    && (c.confirmation.id in d.consumptions ==>
          var k := d.consumptions[c.confirmation.id];
          k.operationId == c.intent.operationId && k.intentHash == IntentDigest(c.intent) && k.confirmationHash == ConfirmationDigest(c.confirmation))
    && (c.intent.operationId in d.records ==>
          var r := d.records[c.intent.operationId];
          r.intentHash == IntentDigest(c.intent) && r.confirmationId == c.confirmation.id && c.confirmation.id in d.consumptions)
  }

  // The record that the callback goes on with.
  function Found(d: Disk, c: Call): Record {
    if c.intent.operationId in d.records then d.records[c.intent.operationId] else FirstRecord(c.intent, c.confirmation, c.now)
  }

  // A first record needs a confirmation that is valid now; later calls only one that
  // was valid when it was issued.
  predicate MayProceed(d: Disk, c: Call) {
    Owned(d, c) && Verified(c.intent, c.confirmation, c.trust, if c.intent.operationId in d.records then c.confirmation.issuedAt else c.now)
  }

  predicate Fresh(d: Disk, c: Call) {
    c.intent.operationId !in d.records || d.records[c.intent.operationId].state == Authorized
  }

  // Nothing stops the effect: the confirmation is valid now, the current state is
  // accepted each time it is asked about, and the effect does not throw.
  predicate EffectAdmitted(c: Call, env: Callbacks, first: bool) {
    Verified(c.intent, c.confirmation, c.trust, c.now) && (first ==> env.validBefore) && env.validAtEffect && env.effect.Some?
  }

  // The digest that is durable before the effect.
  function DigestOf(d: Disk, c: Call, env: Callbacks): Option<Digest> {
    if Fresh(d, c) then Some(EffectDigest(env.digest)) else d.records[c.intent.operationId].effectDigest
  }

  predicate Starts(w: World, c: Call, env: Callbacks) {
    MayProceed(w.disk, c) && c.intent.operationId !in w.done && EffectAdmitted(c, env, Fresh(w.disk, c))
  }

  predicate ReceiptSettled(d: Disk, c: Call) {
    c.intent.operationId in d.records && d.records[c.intent.operationId].state in {ReceiptCommitted, Responded}
  }

  predicate ReceiptPasses(c: Call, env: Callbacks) {
    env.receiptAccepted && c.intent.issuedAt <= c.now
  }

  // The call is answered: it may proceed, its effect is done or nothing stops it, and
  // its receipt is settled or accepted.
  predicate Succeeds(w: World, c: Call, env: Callbacks) {
    && MayProceed(w.disk, c)
    && (c.intent.operationId in w.done || EffectAdmitted(c, env, Fresh(w.disk, c)))
    && (ReceiptSettled(w.disk, c) || ReceiptPasses(c, env))
  }

  function AnswerOf(w: World, c: Call, env: Callbacks): Option<string> {
    if c.intent.operationId in w.done then Some(w.done[c.intent.operationId]) else env.effect
  }

  lemma VerifiedEarlier(i: Intent, c: Confirmation, t: Trust, now: int)
    requires Verified(i, c, t, now)
    ensures Verified(i, c, t, c.issuedAt) && i.issuedAt <= now
  {
  }

  // The reads and checks at the start of the callback let a call through exactly when
  // it may proceed: to its record, to a first record, or to bind its confirmation.
  lemma InspectExactly(d: Disk, c: Call)
    ensures InspectPc(d, c) ==
      if !MayProceed(d, c) then ReleasingOperation(Failed)
      else if c.intent.operationId in d.records then Holding(d.records[c.intent.operationId])
      else if c.confirmation.id in d.consumptions then Opening(FirstRecord(c.intent, c.confirmation, c.now))
      else Binding
  {
    if Verified(c.intent, c.confirmation, c.trust, c.now) { VerifiedEarlier(c.intent, c.confirmation, c.trust, c.now); }
  }

  ghost predicate Shadow(ledger: Ledger, outside: Outside, w: World)
    reads ledger, outside
  {
    && w.disk == ledger.Contents()
    && w.done == outside.done
    && w.effects == outside.effects
    && w.receipts == outside.receipts
  }

  // `w'` comes from `w` by a run of steps of call `id` alone.
  ghost predicate Follow(w: World, w': World, id: nat) {
    && id in w.calls && id in w'.calls
    && w'.live == w.live
    && w'.calls == w.calls[id := w.calls[id].(pc := w'.calls[id].pc)]
    && exists steps: seq<Step> :: OfCall(steps, id) && Run(w, steps) == w'
  }

  ghost predicate OfCall(steps: seq<Step>, id: nat) {
    forall i :: 0 <= i < |steps| ==> steps[i].Act? && steps[i].call == id
  }

  lemma FollowAction(w0: World, w: World, id: nat, a: Action)
    requires Follow(w0, w, id)
    ensures Follow(w0, Do(w, id, a), id)
  {
    var steps :| OfCall(steps, id) && Run(w0, steps) == w;
    var next := steps + [Act(id, a)];
    RunSplits(w0, steps, [Act(id, a)]);
    assert Run(w, [Act(id, a)]) == Run(Do(w, id, a), []) == Do(w, id, a);
    assert OfCall(next, id) && Run(w0, next) == Do(w, id, a);
    ActionTouchesOneCall(w, id, a);
  }

  lemma ActionTouchesOneCall(w: World, id: nat, a: Action)
    requires id in w.calls
    ensures var w' := Do(w, id, a);
      w'.live == w.live && id in w'.calls && w'.calls == w.calls[id := w.calls[id].(pc := w'.calls[id].pc)]
  {
    assert w.calls == w.calls[id := w.calls[id]];
    if LockAction(a) { LockTouchesOneCall(w, id, a); } else { CallbackTouchesOneCall(w, id, a); }
  }

  lemma LockTouchesOneCall(w: World, id: nat, a: Action)
    requires id in w.calls && LockAction(a)
    ensures var w' := Do(w, id, a);
      w'.live == w.live && id in w'.calls && w'.calls == w.calls[id := w.calls[id].(pc := w'.calls[id].pc)]
  {
    assert w.calls == w.calls[id := w.calls[id]];
  }

  lemma CallbackTouchesOneCall(w: World, id: nat, a: Action)
    requires id in w.calls && !LockAction(a)
    ensures var w' := Do(w, id, a);
      w'.live == w.live && id in w'.calls && w'.calls == w.calls[id := w.calls[id].(pc := w'.calls[id].pc)]
  {
    assert w.calls == w.calls[id := w.calls[id]];
  }

  lemma FollowNothing(w: World, id: nat)
    requires id in w.calls
    ensures Follow(w, w, id)
  {
    assert OfCall([], id) && Run(w, []) == w;
    assert w.calls == w.calls[id := w.calls[id].(pc := w.calls[id].pc)];
  }

  lemma FollowKeeps(w: World, w': World, id: nat)
    requires Follow(w, w', id) && Inv(w)
    ensures Inv(w') && Extends(w, w')
  {
    var steps :| OfCall(steps, id) && Run(w, steps) == w';
    RunKeepsInvariant(w, steps);
    RunExtends(w, steps);
  }

  ghost predicate IsCall(w: World, id: nat, intent: Intent, confirmation: Confirmation, trust: Trust, now: int) {
    && id in w.calls
    && w.calls[id].intent == intent && w.calls[id].confirmation == confirmation
    && w.calls[id].trust == trust && w.calls[id].now == now
  }

  // The temporary file and the rename together replace the record.
  lemma CommitSteps(w0: World, w: World, id: nat)
    requires Follow(w0, w, id) && w.calls[id].pc.Opening?
    ensures var c := w.calls[id]; var next := c.pc.next;
      if Shaped(next) && (Op(c), next.sequence) !in w.disk.recordTemps then
        var w' := PublishRecord(WriteRecordTemp(w, id), id);
        && Follow(w0, w', id)
        && w' == At(w.(disk := w.disk.(records := w.disk.records[Op(c) := next])), id, Holding(next))
      else
        Follow(w0, Throw(w, id), id)
  {
    var c := w.calls[id]; var next := c.pc.next;
    FollowAction(w0, w, id, OpenRecord);
    if Shaped(next) && (Op(c), next.sequence) !in w.disk.recordTemps {
      var w1 := WriteRecordTemp(w, id);
      FollowAction(w0, w1, id, RenameRecord);
      assert PublishRecord(w1, id).disk.recordTemps == w.disk.recordTemps;
    }
  }

  lemma OpeningIsClear(w0: World, w: World, id: nat)
    requires Reachable(w0) && Follow(w0, w, id) && w.calls[id].pc.Opening?
    ensures var next := w.calls[id].pc.next;
      Shaped(next) && (Op(w.calls[id]), next.sequence) !in w.disk.recordTemps
  {
    ReachableInvariant(w0);
    FollowKeeps(w0, w, id);
    OwnFacts(w, id);
    assert 1 <= w.calls[id].pc.next.sequence <= 5;
  }

  // write: the temporary file, then the rename over the record.
  method Commit(ledger: Ledger, outside: Outside, operationId: string, next: Record, ghost w0: World, ghost w: World, ghost id: nat)
    returns (ok: bool, ghost w': World)
    requires Shadow(ledger, outside, w) && Follow(w0, w, id)
    requires w.calls[id].pc == Opening(next) && Op(w.calls[id]) == operationId
    modifies ledger
    ensures Shadow(ledger, outside, w') && Follow(w0, w', id)
    ensures w' == if ok
      then At(w.(disk := w.disk.(records := w.disk.records[operationId := next])), id, Holding(next))
      else Throw(w, id)
    ensures Reachable(w0) ==> ok
  {
    if Reachable(w0) { OpeningIsClear(w0, w, id); }
    CommitSteps(w0, w, id);
    ok := ledger.Write(operationId, next);
    w' := if ok
      then At(w.(disk := w.disk.(records := w.disk.records[operationId := next])), id, Holding(next))
      else Throw(w, id);
  }

  lemma BindSteps(w0: World, w: World, id: nat)
    requires Follow(w0, w, id) && w.calls[id].pc.Binding?
    ensures var c := w.calls[id];
      if Conf(c) !in w.disk.consumptionTemps then
        Follow(w0, At(w.(disk := w.disk.(
          consumptions := w.disk.consumptions[Conf(c) := ConsumptionOf(c.intent, c.confirmation, c.now)])),
          id, Opening(FirstRecord(c.intent, c.confirmation, c.now))), id)
      else Follow(w0, Throw(w, id), id)
  {
    var c := w.calls[id];
    FollowAction(w0, w, id, OpenConsumption);
    if Conf(c) !in w.disk.consumptionTemps {
      var w1 := WriteConsumptionTemp(w, id);
      FollowAction(w0, w1, id, RenameConsumption);
      assert PublishConsumption(w1, id).disk.consumptionTemps == w.disk.consumptionTemps;
    }
  }

  lemma BindingIsClear(w0: World, w: World, id: nat)
    requires Reachable(w0) && Follow(w0, w, id) && w.calls[id].pc.Binding?
    ensures Conf(w.calls[id]) !in w.disk.consumptionTemps
  {
    ReachableInvariant(w0);
    FollowKeeps(w0, w, id);
    OwnFacts(w, id);
  }

  // Lines 608-675: read both records, check replay, bind the confirmation and
  // write the first record.
  method Authorize(
    ledger: Ledger, outside: Outside, intent: Intent, confirmation: Confirmation, trust: Trust, now: int,
    ghost w0: World, ghost w: World, ghost id: nat)
    returns (record: Option<Record>, ghost w': World)
    requires Shadow(ledger, outside, w) && Follow(w0, w, id)
    requires IsCall(w, id, intent, confirmation, trust, now) && w.calls[id].pc == OperationReady
    modifies ledger
    ensures Shadow(ledger, outside, w') && Follow(w0, w', id)
    ensures w'.calls[id].pc == if record.Some? then Holding(record.value) else ReleasingOperation(Failed)
    ensures IsCall(w', id, intent, confirmation, trust, now)
    ensures w'.effects == w.effects && w'.done == w.done && w'.receipts == w.receipts
    ensures record.Some? ==> MayProceed(w.disk, w.calls[id])
    ensures Reachable(w0) && MayProceed(w.disk, w.calls[id]) ==> record.Some?
    ensures record.Some? ==> record.value == Found(w.disk, w.calls[id])
  {
    FollowAction(w0, w, id, Inspect);
    InspectExactly(w.disk, w.calls[id]);
    w' := InspectLedger(w, id);
    var consumed := ledger.ReadConfirmation(confirmation.id);
    var existing := ledger.Read(intent.operationId);
    if existing.Some? && (existing.value.intentHash != IntentHash(intent) || existing.value.confirmationId != confirmation.id) {
      return None, w';
    }
    if consumed.Some? && (consumed.value.operationId != intent.operationId || consumed.value.intentHash != IntentHash(intent) || consumed.value.confirmationHash != ConfirmationDigest(confirmation)) {
      return None, w';
    }
    if consumed.None? && existing.Some? { return None, w'; }
    if !Verified(intent, confirmation, trust, if consumed.None? then now else confirmation.issuedAt) {
      return None, w';
    }
    if consumed.Some? && existing.None? && !Verified(intent, confirmation, trust, now) {
      return None, w';
    }
    if existing.Some? { return existing, w'; }
    if consumed.None? {
      BindSteps(w0, w', id);
      if Reachable(w0) { BindingIsClear(w0, w', id); }
      var bound := ledger.BindConfirmation(intent, confirmation, now);
      if !bound { return None, Throw(w', id); }
      w' := At(w'.(disk := w'.disk.(
        consumptions := w'.disk.consumptions[confirmation.id := ConsumptionOf(intent, confirmation, now)])),
        id, Opening(FirstRecord(intent, confirmation, now)));
    }
    var first := FirstRecord(intent, confirmation, now);
    var written;
    written, w' := Commit(ledger, outside, intent.operationId, first, w0, w', id);
    record := if written then Some(first) else None;
  }

  // Where the call stands after a phase that threw, or that holds `record`.
  ghost predicate Stands(w: World, id: nat, record: Option<Record>) {
    && id in w.calls
    && w.calls[id].pc == if record.Some? then Holding(record.value) else ReleasingOperation(Failed)
  }

  // What a run of one call from a good world knows about the record it holds.
  lemma HeldRecord(w0: World, w: World, id: nat)
    requires Follow(w0, w, id) && Reachable(w0) && w.calls[id].pc.Holding?
    ensures var c := w.calls[id]; var r := c.pc.record;
      && Op(c) in w.disk.records && w.disk.records[Op(c)] == r
      && Shaped(r) && Owned(w.disk, c) && Conf(c) in w.disk.consumptions
      && (Op(c) in w.done ==> r.sequence >= 2)
      && (r.sequence >= 3 ==> Op(c) in w.done && r.result == Some(w.done[Op(c)]))
  {
    ReachableInvariant(w0);
    FollowKeeps(w0, w, id);
    HeldIsDurable(w, id);
    assert EffectOk(w, Op(w.calls[id]));
  }

  lemma HeldIsDurable(w: World, id: nat)
    requires Inv(w) && id in w.calls && w.calls[id].pc.Holding?
    ensures AtRecord(w, w.calls[id], w.calls[id].pc.record)
  {
    assert CallOk(w, w.calls[id]);
  }

  lemma FollowPrepare(w0: World, w: World, id: nat, valid: bool, digest: string)
    requires Follow(w0, w, id)
    ensures Follow(w0, PrepareEffect(w, id, valid, digest), id)
  {
    FollowAction(w0, w, id, Action.Prepare(valid, digest));
  }

  lemma FollowReconcile(w0: World, w: World, id: nat)
    requires Follow(w0, w, id)
    ensures Follow(w0, ReconcileEffect(w, id), id)
  {
    FollowAction(w0, w, id, Reconcile);
  }

  lemma FollowAdmit(w0: World, w: World, id: nat, valid: bool)
    requires Follow(w0, w, id)
    ensures Follow(w0, AdmitEffect(w, id, valid), id)
  {
    FollowAction(w0, w, id, StartEffect(valid));
  }

  lemma FollowExecute(w0: World, w: World, id: nat, result: string)
    requires Follow(w0, w, id)
    ensures Follow(w0, ExecuteEffect(w, id, result), id)
  {
    FollowAction(w0, w, id, RunEffect(result));
  }

  lemma FollowKeep(w0: World, w: World, id: nat)
    requires Follow(w0, w, id)
    ensures Follow(w0, KeepEffect(w, id), id)
  {
    FollowAction(w0, w, id, CommitEffect);
  }

  lemma FollowDeliver(w0: World, w: World, id: nat)
    requires Follow(w0, w, id)
    ensures Follow(w0, DeliverReceipt(w, id), id)
  {
    FollowAction(w0, w, id, RecordReceipt);
  }

  lemma FollowRespond(w0: World, w: World, id: nat)
    requires Follow(w0, w, id)
    ensures Follow(w0, MarkResponded(w, id), id)
  {
    FollowAction(w0, w, id, Respond);
  }

  lemma FollowAnswer(w0: World, w: World, id: nat)
    requires Follow(w0, w, id)
    ensures Follow(w0, Answer(w, id), id)
  {
    FollowAction(w0, w, id, Finish);
  }

  lemma FollowFail(w0: World, w: World, id: nat)
    requires Follow(w0, w, id)
    ensures Follow(w0, FailInside(w, id), id)
  {
    FollowAction(w0, w, id, Fail);
  }

  // Lines 676-688: authorized to effect_prepared.
  method Prepare(
    ledger: Ledger, outside: Outside, intent: Intent, confirmation: Confirmation, trust: Trust, now: int,
    env: Callbacks, record: Record, ghost w0: World, ghost w: World, ghost id: nat)
    returns (r: Option<Record>, ghost w': World)
    requires Shadow(ledger, outside, w) && Follow(w0, w, id)
    requires IsCall(w, id, intent, confirmation, trust, now)
    requires w.calls[id].pc == Holding(record) && record.state == Authorized
    modifies ledger
    ensures Shadow(ledger, outside, w') && Follow(w0, w', id) && Stands(w', id, r)
    ensures IsCall(w', id, intent, confirmation, trust, now)
    ensures w'.done == w.done && w'.effects == w.effects
    ensures r.Some? ==> r.value.state == EffectPrepared && r.value.effectDigest == Some(EffectDigest(env.digest))
    ensures r.Some? ==> Verified(intent, confirmation, trust, now) && env.validBefore
    ensures Reachable(w0) && Verified(intent, confirmation, trust, now) && env.validBefore ==> r.Some?
  {
    if Reachable(w0) { HeldRecord(w0, w, id); }
    FollowPrepare(w0, w, id, env.validBefore, env.digest);
    w' := PrepareEffect(w, id, env.validBefore, env.digest);
    if !Verified(intent, confirmation, trust, now) || !env.validBefore { return None, w'; }
    var next := NextRecord(record, EffectPrepared, now, Some(EffectDigest(env.digest)), None, None);
    if next.None? { return None, w'; }
    var written;
    written, w' := Commit(ledger, outside, intent.operationId, next.value, w0, w', id);
    r := if written then next else None;
  }

  // Lines 691-700: the effect itself, after a fresh check of the confirmation.
  method StartEffectOnce(
    outside: Outside, intent: Intent, confirmation: Confirmation, trust: Trust, now: int,
    env: Callbacks, record: Record, ghost w0: World, ghost w: World, ghost id: nat)
    returns (result: Option<string>, ghost w': World)
    requires w.done == outside.done && w.effects == outside.effects && w.receipts == outside.receipts
    requires Follow(w0, w, id) && IsCall(w, id, intent, confirmation, trust, now)
    requires w.calls[id].pc == Reconciled(record)
    modifies outside
    ensures outside.receipts == old(outside.receipts)
    ensures Follow(w0, w', id)
    ensures result.Some? == (Verified(intent, confirmation, trust, now) && env.validAtEffect && env.effect.Some?)
    ensures result.Some? ==>
      && result == env.effect
      && outside.done == w.done[intent.operationId := result.value]
      && outside.effects == w.effects + [EffectEvent(intent.operationId, id, record.effectDigest)]
      && w' == At(w.(done := outside.done, effects := outside.effects), id, EffectDone(record, result.value))
    ensures result.None? ==>
      outside.done == w.done && outside.effects == w.effects && w' == Throw(w, id)
  {
    FollowAdmit(w0, w, id, env.validAtEffect);
    w' := AdmitEffect(w, id, env.validAtEffect);
    if !Verified(intent, confirmation, trust, now) || !env.validAtEffect { return None, w'; }
    if env.effect.None? {
      FollowFail(w0, w', id);
      return None, FailInside(w', id);
    }
    result := env.effect;
    FollowExecute(w0, w', id, result.value);
    w' := ExecuteEffect(w', id, result.value);
    outside.done := outside.done[intent.operationId := result.value];
    outside.effects := outside.effects + [EffectEvent(intent.operationId, id, record.effectDigest)];
  }

  // The effect ran once with this result, or not at all.
  ghost predicate Ran(w: World, w': World, id: nat, result: Option<string>, digest: Option<Digest>)
    requires id in w.calls
  {
    match result
    case Some(r) =>
      w'.done == w.done[w.calls[id].intent.operationId := r]
      && w'.effects == w.effects + [EffectEvent(w.calls[id].intent.operationId, id, digest)]
    case None => w'.done == w.done && w'.effects == w.effects
  }

  // The record that keeps `result`, reached from either branch.
  lemma KeepSteps(w0: World, w: World, id: nat, record: Record, result: string)
    requires Follow(w0, w, id)
    requires || w.calls[id].pc == EffectDone(record, result)
             || (&& w.calls[id].pc == Holding(record) && record.state == EffectPrepared
                 && Op(w.calls[id]) in w.done && w.done[Op(w.calls[id])] == result)
    ensures var next := NextRecord(record, EffectCommitted, w.calls[id].now, None, Some(result), None);
      Follow(w0, if next.None? then Throw(w, id) else At(w, id, Opening(next.value)), id)
  {
    if w.calls[id].pc.EffectDone? { FollowKeep(w0, w, id); } else { FollowReconcile(w0, w, id); }
  }

  // What reconcileEffect reports, or else the effect's own result.
  method Resolve(
    outside: Outside, intent: Intent, confirmation: Confirmation, trust: Trust, now: int,
    env: Callbacks, record: Record, ghost w0: World, ghost w: World, ghost id: nat)
    returns (result: Option<string>, ghost w': World)
    requires w.done == outside.done && w.effects == outside.effects && w.receipts == outside.receipts
    requires Follow(w0, w, id) && IsCall(w, id, intent, confirmation, trust, now)
    requires w.calls[id].pc == Holding(record) && record.state == EffectPrepared
    modifies outside
    ensures w'.disk == w.disk && w'.receipts == outside.receipts
    ensures w'.done == outside.done && w'.effects == outside.effects
    ensures Follow(w0, w', id) && IsCall(w', id, intent, confirmation, trust, now)
    ensures result.Some? ==>
      var next := NextRecord(record, EffectCommitted, now, None, result, None);
      Follow(w0, if next.None? then Throw(w', id) else At(w', id, Opening(next.value)), id)
    ensures result.None? ==> w'.calls[id].pc == ReleasingOperation(Failed)
    ensures intent.operationId in w.done ==> result == Some(w.done[intent.operationId]) && w' == w
    ensures intent.operationId !in w.done ==>
      Ran(w, w', id, if EffectAdmitted(w.calls[id], env, false) then env.effect else None, record.effectDigest) &&
      result == if EffectAdmitted(w.calls[id], env, false) then env.effect else None
  {
    w' := w;
    if intent.operationId in outside.done {
      result := Some(outside.done[intent.operationId]);
    } else {
      FollowReconcile(w0, w, id);
      result, w' := StartEffectOnce(outside, intent, confirmation, trust, now, env, record, w0, At(w, id, Reconciled(record)), id);
      if result.None? { return; }
    }
    KeepSteps(w0, w', id, record, result.value);
  }

  // Lines 689-710: reconcile, run the effect only if it has not happened, and
  // keep its result.
  method RunOnce(
    ledger: Ledger, outside: Outside, intent: Intent, confirmation: Confirmation, trust: Trust, now: int,
    env: Callbacks, record: Record, ghost w0: World, ghost w: World, ghost id: nat)
    returns (r: Option<Record>, ghost w': World)
    requires Shadow(ledger, outside, w) && Follow(w0, w, id)
    requires IsCall(w, id, intent, confirmation, trust, now)
    requires w.calls[id].pc == Holding(record) && record.state == EffectPrepared
    modifies ledger, outside
    ensures Shadow(ledger, outside, w') && Follow(w0, w', id) && Stands(w', id, r)
    ensures IsCall(w', id, intent, confirmation, trust, now)
    ensures r.Some? ==> r.value.state == EffectCommitted
    ensures intent.operationId in w.done ==> w'.done == w.done && w'.effects == w.effects
    ensures intent.operationId !in w.done ==>
      Ran(w, w', id, if EffectAdmitted(w.calls[id], env, false) then env.effect else None, record.effectDigest)
    ensures r.Some? ==> intent.operationId in w.done || EffectAdmitted(w.calls[id], env, false)
    ensures Reachable(w0) && (intent.operationId in w.done || EffectAdmitted(w.calls[id], env, false)) ==> r.Some?
  {
    if Reachable(w0) { HeldRecord(w0, w, id); }
    var result;
    result, w' := Resolve(outside, intent, confirmation, trust, now, env, record, w0, w, id);
    if result.None? { return None, w'; }
    var next := NextRecord(record, EffectCommitted, now, None, result, None);
    if next.None? { return None, Throw(w', id); }
    var written;
    written, w' := Commit(ledger, outside, intent.operationId, next.value, w0, At(w', id, Opening(next.value)), id);
    r := if written then next else None;
  }

  // The record after the receipt was delivered, and after the answer was settled.
  lemma DeliverSteps(w0: World, w: World, id: nat)
    requires Follow(w0, w, id) && w.calls[id].pc.Holding? && w.calls[id].pc.record.state == EffectCommitted
    ensures var c := w.calls[id]; var r := c.pc.record; var receipt := BuildReceipt(c.intent, c.confirmation, r, c.now);
      if receipt.None? then true
      else
        var next := NextRecord(r, ReceiptCommitted, c.now, None, None, receipt);
        var w1 := w.(receipts := w.receipts + [receipt.value]);
        Follow(w0, if next.None? then Throw(w1, id) else At(w1, id, Opening(next.value)), id)
  {
    FollowDeliver(w0, w, id);
  }

  lemma RespondSteps(w0: World, w: World, id: nat)
    requires Follow(w0, w, id) && w.calls[id].pc.Holding? && w.calls[id].pc.record.state == ReceiptCommitted
    ensures var c := w.calls[id]; var next := NextRecord(c.pc.record, Responded, c.now, None, None, None);
      Follow(w0, if next.None? then Throw(w, id) else At(w, id, Opening(next.value)), id)
  {
    FollowRespond(w0, w, id);
  }

  lemma FailSteps(w0: World, w: World, id: nat)
    requires Follow(w0, w, id) && InCallback(w.calls[id].pc)
    ensures Follow(w0, Throw(w, id), id)
  {
    FollowFail(w0, w, id);
  }

  // Lines 711-750: deliver the receipt, then store it.
  method SettleReceipt(
    ledger: Ledger, outside: Outside, intent: Intent, confirmation: Confirmation, trust: Trust, now: int,
    env: Callbacks, record: Record, ghost w0: World, ghost w: World, ghost id: nat)
    returns (r: Option<Record>, ghost w': World)
    requires Shadow(ledger, outside, w) && Follow(w0, w, id)
    requires IsCall(w, id, intent, confirmation, trust, now)
    requires w.calls[id].pc == Holding(record) && record.state == EffectCommitted
    modifies ledger, outside
    ensures Shadow(ledger, outside, w') && Follow(w0, w', id) && Stands(w', id, r)
    ensures IsCall(w', id, intent, confirmation, trust, now)
    ensures w'.done == w.done && w'.effects == w.effects
    ensures r.Some? ==> r.value.state == ReceiptCommitted && ReceiptPasses(w.calls[id], env)
    ensures Reachable(w0) && ReceiptPasses(w.calls[id], env) ==> r.Some?
  {
    if Reachable(w0) { HeldRecord(w0, w, id); }
    var receipt := BuildReceipt(intent, confirmation, record, now);
    if receipt.None? || !env.receiptAccepted {
      FailSteps(w0, w, id);
      return None, Throw(w, id);
    }
    DeliverSteps(w0, w, id);
    w' := w.(receipts := w.receipts + [receipt.value]);
    outside.receipts := outside.receipts + [receipt.value];
    var next := NextRecord(record, ReceiptCommitted, now, None, None, receipt);
    if next.None? { return None, Throw(w', id); }
    var written;
    written, w' := Commit(ledger, outside, intent.operationId, next.value, w0, At(w', id, Opening(next.value)), id);
    r := if written then next else None;
  }

  // Lines 751-760.
  method SettleResponse(
    ledger: Ledger, outside: Outside, intent: Intent, confirmation: Confirmation, trust: Trust, now: int,
    record: Record, ghost w0: World, ghost w: World, ghost id: nat)
    returns (r: Option<Record>, ghost w': World)
    requires Shadow(ledger, outside, w) && Follow(w0, w, id)
    requires IsCall(w, id, intent, confirmation, trust, now)
    requires w.calls[id].pc == Holding(record) && record.state == ReceiptCommitted
    modifies ledger
    ensures Shadow(ledger, outside, w') && Follow(w0, w', id) && Stands(w', id, r)
    ensures IsCall(w', id, intent, confirmation, trust, now)
    ensures w'.done == w.done && w'.effects == w.effects
    ensures r.Some? ==> r.value.state == Responded
    ensures Reachable(w0) ==> r.Some?
  {
    if Reachable(w0) { HeldRecord(w0, w, id); }
    RespondSteps(w0, w, id);
    var next := NextRecord(record, Responded, now, None, None, None);
    if next.None? { return None, Throw(w, id); }
    var written;
    written, w' := Commit(ledger, outside, intent.operationId, next.value, w0, At(w, id, Opening(next.value)), id);
    r := if written then next else None;
  }

  // From the record found to a committed one.
  ghost predicate Committed(w: World, w': World, id: nat, env: Callbacks, held: Record, r: Option<Record>)
    requires id in w.calls
  {
    var c := w.calls[id];
    && (r.Some? <==> c.intent.operationId in w.done || EffectAdmitted(c, env, held.state == Authorized))
    && (r.Some? ==> (if held.state in {Authorized, EffectPrepared} then r.value.state == EffectCommitted else r.value == held))
    && (if c.intent.operationId in w.done then w'.done == w.done && w'.effects == w.effects
        else Ran(w, w', id, if r.Some? then env.effect else None,
                 if held.state == Authorized then Some(EffectDigest(env.digest)) else held.effectDigest))
  }

  // Lines 676-710: what a record in one of the first two states still needs.
  method ReachCommitted(
    ledger: Ledger, outside: Outside, intent: Intent, confirmation: Confirmation, trust: Trust, now: int,
    env: Callbacks, held: Record, ghost w0: World, ghost w: World, ghost id: nat)
    returns (r: Option<Record>, ghost w': World)
    requires Shadow(ledger, outside, w) && Follow(w0, w, id)
    requires IsCall(w, id, intent, confirmation, trust, now) && w.calls[id].pc == Holding(held)
    modifies ledger, outside
    ensures Shadow(ledger, outside, w') && Follow(w0, w', id) && Stands(w', id, r)
    ensures IsCall(w', id, intent, confirmation, trust, now)
    ensures r.Some? ==> r.value.state != Authorized && r.value.state != EffectPrepared
    ensures Reachable(w0) ==> Committed(w, w', id, env, held, r)
    ensures !Verified(intent, confirmation, trust, now) ==> w'.done == w.done && w'.effects == w.effects
  {
    if Reachable(w0) { HeldRecord(w0, w, id); }
    r, w' := Some(held), w;
    if held.state == Authorized {
      r, w' := Prepare(ledger, outside, intent, confirmation, trust, now, env, held, w0, w', id);
    }
    if r.Some? && r.value.state == EffectPrepared {
      r, w' := RunOnce(ledger, outside, intent, confirmation, trust, now, env, r.value, w0, w', id);
    }
  }

  // Lines 711-760.
  method ReachResponded(
    ledger: Ledger, outside: Outside, intent: Intent, confirmation: Confirmation, trust: Trust, now: int,
    env: Callbacks, held: Record, ghost w0: World, ghost w: World, ghost id: nat)
    returns (r: Option<Record>, ghost w': World)
    requires Shadow(ledger, outside, w) && Follow(w0, w, id)
    requires IsCall(w, id, intent, confirmation, trust, now) && w.calls[id].pc == Holding(held)
    requires held.state != Authorized && held.state != EffectPrepared
    modifies ledger, outside
    ensures Shadow(ledger, outside, w') && Follow(w0, w', id) && Stands(w', id, r)
    ensures IsCall(w', id, intent, confirmation, trust, now)
    ensures r.Some? ==> r.value.state == Responded
    ensures w'.done == w.done && w'.effects == w.effects
    ensures r.Some? ==> held.state != EffectCommitted || ReceiptPasses(w.calls[id], env)
    ensures Reachable(w0) && (held.state != EffectCommitted || ReceiptPasses(w.calls[id], env)) ==> r.Some?
  {
    r, w' := Some(held), w;
    if held.state == EffectCommitted {
      r, w' := SettleReceipt(ledger, outside, intent, confirmation, trust, now, env, held, w0, w', id);
    }
    if r.Some? && r.value.state == ReceiptCommitted {
      r, w' := SettleResponse(ledger, outside, intent, confirmation, trust, now, r.value, w0, w', id);
    }
  }

  lemma AnswerSteps(w0: World, w: World, id: nat)
    requires Follow(w0, w, id) && w.calls[id].pc.Holding? && w.calls[id].pc.record.state == Responded
    ensures var r := w.calls[id].pc.record;
      Follow(w0, At(w, id, ReleasingOperation(if r.result.None? then Failed else Returned(r.result.value))), id)
  {
    FollowAnswer(w0, w, id);
  }

  // The record, the consumption and the answer that a call leaves behind.
  ghost predicate Settled(d: Disk, c: Call, result: string) {
    && Owned(d, c) && c.confirmation.id in d.consumptions && c.intent.operationId in d.records
    && d.records[c.intent.operationId].state == Responded && d.records[c.intent.operationId].result == Some(result)
  }

  // The whole outcome of a call that no other disturbs.
  ghost predicate Concludes(w: World, w': World, id: nat, env: Callbacks, outcome: Outcome)
    requires id in w.calls
  {
    var c := w.calls[id];
    && outcome == (if Succeeds(w, c, env) then Returned(AnswerOf(w, c, env).value) else Failed)
    && (Succeeds(w, c, env) ==> Settled(w'.disk, c, AnswerOf(w, c, env).value))
    && (if Starts(w, c, env) then
          w'.done == w.done[c.intent.operationId := env.effect.value]
          && w'.effects == w.effects + [EffectEvent(c.intent.operationId, id, DigestOf(w.disk, c, env))]
        else w'.done == w.done && w'.effects == w.effects)
  }

  // The callback's three phases: `w1` has the record found, `w2` a committed one.
  lemma ConcludesWithout(w: World, w1: World, w2: World, id: nat, env: Callbacks, reached: Option<Record>)
    requires id in w.calls && id in w1.calls && w1.calls[id] == w.calls[id].(pc := w1.calls[id].pc)
    requires w1.done == w.done && w1.effects == w.effects && MayProceed(w.disk, w.calls[id])
    requires Committed(w1, w2, id, env, Found(w.disk, w.calls[id]), reached)
    requires reached.Some? ==> reached.value.state == EffectCommitted && !ReceiptPasses(w.calls[id], env)
    ensures Concludes(w, w2, id, env, Failed)
  {
  }

  lemma ConcludesWith(w: World, w1: World, w2: World, w': World, id: nat, env: Callbacks, reached: Record, result: string)
    requires id in w.calls && id in w1.calls && w1.calls[id] == w.calls[id].(pc := w1.calls[id].pc)
    requires w1.done == w.done && w1.effects == w.effects && MayProceed(w.disk, w.calls[id])
    requires Committed(w1, w2, id, env, Found(w.disk, w.calls[id]), Some(reached))
    requires reached.state != EffectCommitted || ReceiptPasses(w.calls[id], env)
    requires reached.state in {EffectCommitted, ReceiptCommitted, Responded}
    requires w'.done == w2.done && w'.effects == w2.effects && Settled(w'.disk, w.calls[id], result)
    requires Op(w.calls[id]) in w'.done && w'.done[Op(w.calls[id])] == result
    ensures Concludes(w, w', id, env, Returned(result))
  {
  }

  // From a committed record to the answer.
  method Reply(
    ledger: Ledger, outside: Outside, intent: Intent, confirmation: Confirmation, trust: Trust, now: int,
    env: Callbacks, reached: Record, ghost w0: World, ghost w: World, ghost w1: World, ghost w2: World, ghost id: nat)
    returns (outcome: Outcome, ghost w': World)
    requires Shadow(ledger, outside, w2) && Follow(w0, w2, id)
    requires IsCall(w2, id, intent, confirmation, trust, now) && w2.calls[id].pc == Holding(reached)
    requires reached.state in {EffectCommitted, ReceiptCommitted, Responded}
    requires id in w.calls && id in w1.calls
    requires w1.calls[id] == w.calls[id].(pc := w1.calls[id].pc) && w2.calls[id] == w.calls[id].(pc := w2.calls[id].pc)
    requires Reachable(w0) ==>
      && w1.done == w.done && w1.effects == w.effects && MayProceed(w.disk, w.calls[id])
      && Committed(w1, w2, id, env, Found(w.disk, w.calls[id]), Some(reached))
    modifies ledger, outside
    ensures Shadow(ledger, outside, w') && Follow(w0, w', id)
    ensures IsCall(w', id, intent, confirmation, trust, now)
    ensures w'.calls[id].pc == ReleasingOperation(outcome)
    ensures Reachable(w0) ==> Concludes(w, w', id, env, outcome)
    ensures w'.done == w2.done && w'.effects == w2.effects
  {
    var record;
    record, w' := ReachResponded(ledger, outside, intent, confirmation, trust, now, env, reached, w0, w2, id);
    if record.None? {
      if Reachable(w0) { ConcludesWithout(w, w1, w', id, env, Some(reached)); }
      return Failed, w';
    }
    if Reachable(w0) { AnsweredRecord(w0, w, w1, w2, w', id, env, reached); }
    AnswerSteps(w0, w', id);
    outcome := if record.value.result.None? then Failed else Returned(record.value.result.value);
    w' := At(w', id, ReleasingOperation(outcome));
  }

  // The callback under both locks.
  method Callback(
    ledger: Ledger, outside: Outside, intent: Intent, confirmation: Confirmation, trust: Trust, now: int,
    env: Callbacks, ghost w0: World, ghost w: World, ghost id: nat)
    returns (outcome: Outcome, ghost w': World)
    requires Shadow(ledger, outside, w) && Follow(w0, w, id)
    requires IsCall(w, id, intent, confirmation, trust, now) && w.calls[id].pc == OperationReady
    modifies ledger, outside
    ensures Shadow(ledger, outside, w') && Follow(w0, w', id)
    ensures IsCall(w', id, intent, confirmation, trust, now)
    ensures w'.calls[id].pc == ReleasingOperation(outcome)
    ensures Reachable(w0) ==> Concludes(w, w', id, env, outcome)
    ensures !Verified(intent, confirmation, trust, now) ==> w'.done == w.done && w'.effects == w.effects
  {
    var record;
    ghost var w1, w2;
    record, w1 := Authorize(ledger, outside, intent, confirmation, trust, now, w0, w, id);
    if record.None? { return Failed, w1; }
    record, w2 := ReachCommitted(ledger, outside, intent, confirmation, trust, now, env, record.value, w0, w1, id);
    if record.None? {
      if Reachable(w0) { ConcludesWithout(w, w1, w2, id, env, record); }
      return Failed, w2;
    }
    outcome, w' := Reply(ledger, outside, intent, confirmation, trust, now, env, record.value, w0, w, w1, w2, id);
  }

  lemma AnsweredRecord(w0: World, w: World, w1: World, w2: World, w': World, id: nat, env: Callbacks, reached: Record)
    requires Reachable(w0) && Follow(w0, w', id) && id in w.calls && id in w1.calls
    requires w1.calls[id] == w.calls[id].(pc := w1.calls[id].pc) && w'.calls[id] == w.calls[id].(pc := w'.calls[id].pc)
    requires w1.done == w.done && w1.effects == w.effects && MayProceed(w.disk, w.calls[id])
    requires Committed(w1, w2, id, env, Found(w.disk, w.calls[id]), Some(reached))
    requires reached.state != EffectCommitted || ReceiptPasses(w.calls[id], env)
    requires reached.state in {EffectCommitted, ReceiptCommitted, Responded}
    requires w'.done == w2.done && w'.effects == w2.effects
    requires w'.calls[id].pc.Holding? && w'.calls[id].pc.record.state == Responded
    ensures w'.calls[id].pc.record.result.Some?
    ensures Concludes(w, At(w', id, ReleasingOperation(Returned(w'.calls[id].pc.record.result.value))), id, env,
                      Returned(w'.calls[id].pc.record.result.value))
  {
    HeldRecord(w0, w', id);
    var result := w'.calls[id].pc.record.result.value;
    ConcludesWith(w, w1, w2, At(w', id, ReleasingOperation(Returned(result))), id, env, reached, result);
  }

  // When a call whose files are its own is answered, by what it finds: nothing or a
  // consumption alone, and a record in each of its five states.
  lemma SucceedsByState(w: World, c: Call, env: Callbacks)
    requires Reachable(w) && Owned(w.disk, c)
    ensures var op := c.intent.operationId; var valid := Verified(c.intent, c.confirmation, c.trust, c.now);
      if op !in w.disk.records || w.disk.records[op].state == Authorized then
        && op !in w.done
        && (Succeeds(w, c, env) <==> valid && env.validBefore && env.validAtEffect && env.effect.Some? && env.receiptAccepted)
        && (Starts(w, c, env) <==> valid && env.validBefore && env.validAtEffect && env.effect.Some?)
      else
        var issued := Verified(c.intent, c.confirmation, c.trust, c.confirmation.issuedAt);
        match w.disk.records[op].state
        case EffectPrepared =>
          && (Succeeds(w, c, env) <==>
                issued && (op in w.done || (valid && env.validAtEffect && env.effect.Some?)) && ReceiptPasses(c, env))
          && (Starts(w, c, env) <==> op !in w.done && valid && env.validAtEffect && env.effect.Some?)
        case EffectCommitted => !Starts(w, c, env) && (Succeeds(w, c, env) <==> issued && ReceiptPasses(c, env))
        case _ => !Starts(w, c, env) && (Succeeds(w, c, env) <==> issued)
  {
    ReachableInvariant(w);
    assert EffectOk(w, c.intent.operationId);
    if c.intent.operationId in w.disk.records { assert RecordOk(w.disk, c.intent.operationId, w.disk.records[c.intent.operationId]); }
    if Verified(c.intent, c.confirmation, c.trust, c.now) { VerifiedEarlier(c.intent, c.confirmation, c.trust, c.now); }
  }

  // In fields: a first call returns and starts the effect exactly when its confirmation
  // is signed under the pinned key for this action and in force, and every callback agrees.
  lemma FirstCallInFields(w: World, c: Call, env: Callbacks)
    requires Reachable(w) && Owned(w.disk, c) && c.intent.operationId !in w.disk.records
    ensures var i, k, t := c.intent, c.confirmation, c.trust;
      var counts :=
        && k in t.signed && k.keyId == t.keyId && k.keyGeneration == t.keyGeneration && k.keyId !in t.revoked
        && k.intentHash == IntentDigest(i) && k.command == i.command && (i.details, k.details) in t.boundDetails
        && k.expiresAt - k.issuedAt <= t.maxTtl && i.issuedAt <= k.issuedAt <= c.now < k.expiresAt <= i.expiresAt;
      && (Starts(w, c, env) <==> counts && env.validBefore && env.validAtEffect && env.effect.Some?)
      && (Succeeds(w, c, env) <==> Starts(w, c, env) && env.receiptAccepted)
  {
    SucceedsByState(w, c, env);
    VerifiedExactly(c.intent, c.confirmation, c.trust, c.now);
  }

  lemma FollowReachable(w: World, w': World, id: nat)
    requires Reachable(w) && Follow(w, w', id)
    ensures Reachable(w')
  {
    var steps :| OfCall(steps, id) && Run(w, steps) == w';
    var before :| Run(EmptyWorld(), before) == w;
    RunSplits(EmptyWorld(), before, steps);
    assert Run(EmptyWorld(), before + steps) == w';
  }

  lemma TakeConfirmationSteps(w0: World, w: World, id: nat, acquiredAt: int)
    requires Follow(w0, w, id) && w.calls[id].pc == Idle
    ensures var c := w.calls[id];
      if Conf(c) in w.disk.confirmationLocks then Follow(w0, At(w, id, Ended(Failed)), id)
      else Follow(w0, At(w.(disk := w.disk.(
        confirmationLocks := w.disk.confirmationLocks[Conf(c) := Held(c.pid, acquiredAt)],
        consumptionTemps := w.disk.consumptionTemps - {Conf(c)})), id, ConfirmationReady), id)
  {
    var c := w.calls[id];
    FollowAction(w0, w, id, CreateConfirmationLock);
    if Conf(c) !in w.disk.confirmationLocks {
      var w1 := TakeConfirmationLock(w, id);
      FollowAction(w0, w1, id, OwnConfirmationLock(acquiredAt));
      var w2 := SignConfirmationLock(w1, id, acquiredAt);
      FollowAction(w0, w2, id, ClearConfirmationTemp);
    }
  }

  lemma TakeOperationSteps(w0: World, w: World, id: nat, acquiredAt: int)
    requires Follow(w0, w, id) && w.calls[id].pc == ConfirmationReady
    ensures var c := w.calls[id];
      if Op(c) in w.disk.operationLocks then Follow(w0, At(w, id, Ended(Failed)), id)
      else Follow(w0, At(w.(disk := w.disk.(
        operationLocks := w.disk.operationLocks[Op(c) := Held(c.pid, acquiredAt)],
        recordTemps := WithoutTemps(w.disk.recordTemps, Op(c)))), id, OperationReady), id)
  {
    var c := w.calls[id];
    FollowAction(w0, w, id, CreateOperationLock);
    if Op(c) !in w.disk.operationLocks {
      var w1 := TakeOperationLock(w, id);
      FollowAction(w0, w1, id, OwnOperationLock(acquiredAt));
      var w2 := SignOperationLock(w1, id, acquiredAt);
      FollowAction(w0, w2, id, ClearOperationTemps);
    }
  }

  lemma ReleaseSteps(w0: World, w: World, id: nat)
    requires Follow(w0, w, id) && w.calls[id].pc.ReleasingOperation?
    ensures var c := w.calls[id];
      Follow(w0, At(w.(disk := w.disk.(
        operationLocks := w.disk.operationLocks - {Op(c)},
        confirmationLocks := w.disk.confirmationLocks - {Conf(c)})), id, Ended(c.pc.outcome)), id)
  {
    FollowAction(w0, w, id, ReleaseOperationLock(true));
    var w1 := DropOperationLock(w, id, true);
    FollowAction(w0, w1, id, Action.ReleaseConfirmationLock(true));
  }

  // Taking locks does not change what the callback will find, nor does releasing them.
  lemma SameConclusion(w: World, w1: World, w2: World, w': World, id: nat, env: Callbacks, outcome: Outcome)
    requires id in w.calls && id in w1.calls && w1.calls[id] == w.calls[id].(pc := w1.calls[id].pc)
    requires w1.disk.consumptions == w.disk.consumptions && w1.disk.records == w.disk.records
    requires w1.done == w.done && w1.effects == w.effects
    requires w'.disk.consumptions == w2.disk.consumptions && w'.disk.records == w2.disk.records
    requires w'.done == w2.done && w'.effects == w2.effects
    ensures Concludes(w1, w2, id, env, outcome) ==> Concludes(w, w', id, env, outcome)
  {
  }

  // The two `finally` blocks.
  method ReleaseLocks(
    ledger: Ledger, outside: Outside, operationId: string, confirmationId: string, ghost w0: World, ghost w: World, ghost id: nat)
    returns (ghost w': World)
    requires Shadow(ledger, outside, w) && Follow(w0, w, id) && w.calls[id].pc.ReleasingOperation?
    requires operationId == Op(w.calls[id]) && confirmationId == Conf(w.calls[id])
    modifies ledger
    ensures Shadow(ledger, outside, w') && Follow(w0, w', id)
    ensures w'.calls[id].pc == Ended(w.calls[id].pc.outcome) && w'.done == w.done && w'.effects == w.effects
    ensures w'.disk.consumptions == w.disk.consumptions && w'.disk.records == w.disk.records
    ensures confirmationId !in ledger.confirmationLocks && operationId !in ledger.operationLocks
  {
    ReleaseSteps(w0, w, id);
    ledger.ReleaseOperationLock(operationId);
    ledger.ReleaseConfirmationLock(confirmationId);
    w' := At(w.(disk := ledger.Contents()), id, Ended(w.calls[id].pc.outcome));
  }

  // withLock around the callback, from a held confirmation lock to its release.
  method WithLock(
    ledger: Ledger, outside: Outside, pid: nat, intent: Intent, confirmation: Confirmation, trust: Trust, now: int,
    lockedAt: int, env: Callbacks, ghost w0: World, ghost w: World, ghost id: nat)
    returns (outcome: Outcome, ghost w': World)
    requires Shadow(ledger, outside, w) && Follow(w0, w, id)
    requires IsCall(w, id, intent, confirmation, trust, now) && w.calls[id].pc == ConfirmationReady && w.calls[id].pid == pid
    modifies ledger, outside
    ensures Shadow(ledger, outside, w') && Follow(w0, w', id)
    ensures w'.calls[id].pc == Ended(outcome)
    ensures intent.operationId in w.disk.operationLocks ==>
      outcome == Failed && ledger.confirmationLocks == w.disk.confirmationLocks
    ensures intent.operationId !in w.disk.operationLocks ==>
      confirmation.id !in ledger.confirmationLocks && intent.operationId !in ledger.operationLocks
    ensures !Verified(intent, confirmation, trust, now) ==> w'.done == w.done && w'.effects == w.effects
    ensures Reachable(w0) && intent.operationId !in w.disk.operationLocks ==> Concludes(w, w', id, env, outcome)
    ensures intent.operationId in w.disk.operationLocks ==> w'.done == w.done && w'.effects == w.effects
  {
    TakeOperationSteps(w0, w, id, lockedAt);
    var acquired := ledger.AcquireOperationLock(intent.operationId, pid, lockedAt);
    if !acquired { return Failed, At(w, id, Ended(Failed)); }
    ghost var w1 := At(w.(disk := ledger.Contents()), id, OperationReady);
    ghost var w2;
    outcome, w2 := Callback(ledger, outside, intent, confirmation, trust, now, env, w0, w1, id);
    w' := ReleaseLocks(ledger, outside, intent.operationId, confirmation.id, w0, w2, id);
    SameConclusion(w, w1, w2, w', id, env, outcome);
  }

  // executeConfirmedOperatorAction, undisturbed by other calls: a run of protocol steps
  // of its own call; `clock` are the times at which it takes its locks. Every result
  // about runs therefore holds of it, and a crash at any point leaves what a prefix of
  // those steps leaves.
  method ExecuteConfirmedOperatorAction(
    ledger: Ledger, outside: Outside, pid: nat, intent: Intent, confirmation: Confirmation, trust: Trust, now: int,
    clock: (int, int), env: Callbacks, ghost w: World, ghost id: nat)
    returns (outcome: Outcome, ghost w': World)
    requires Shadow(ledger, outside, w)
    requires IsCall(w, id, intent, confirmation, trust, now) && w.calls[id].pc == Idle && w.calls[id].pid == pid
    modifies ledger, outside
    ensures Shadow(ledger, outside, w') && Follow(w, w', id)
    ensures w'.calls[id].pc == Ended(outcome)
    ensures Reachable(w) ==> Reachable(w')
    // A contended operation lock leaves the outer confirmation lock behind.
    ensures confirmation.id !in w.disk.confirmationLocks && intent.operationId in w.disk.operationLocks ==>
      outcome == Failed && ledger.confirmationLocks == w.disk.confirmationLocks[confirmation.id := Held(pid, clock.0)]
    ensures confirmation.id !in w.disk.confirmationLocks && intent.operationId !in w.disk.operationLocks ==>
      confirmation.id !in ledger.confirmationLocks && intent.operationId !in ledger.operationLocks
    // Expired or unauthorized calls start nothing.
    ensures !Verified(intent, confirmation, trust, now) ==> w'.done == w.done && w'.effects == w.effects
    // With both locks free the call returns exactly when it succeeds, with the result of
    // the effect, done before or started now; a done effect is never started again, and
    // an answer is durable. A call that meets a lock starts nothing.
    ensures Reachable(w) && confirmation.id !in w.disk.confirmationLocks && intent.operationId !in w.disk.operationLocks ==>
      Concludes(w, w', id, env, outcome)
    ensures confirmation.id in w.disk.confirmationLocks || intent.operationId in w.disk.operationLocks ==>
      outcome == Failed && w'.done == w.done && w'.effects == w.effects
  {
    FollowNothing(w, id);
    TakeConfirmationSteps(w, w, id, clock.0);
    var acquired := ledger.AcquireConfirmationLock(confirmation.id, pid, clock.0);
    if !acquired {
      outcome, w' := Failed, At(w, id, Ended(Failed));
    } else {
      ghost var w1 := At(w.(disk := ledger.Contents()), id, ConfirmationReady);
      outcome, w' := WithLock(ledger, outside, pid, intent, confirmation, trust, now, clock.1, env, w, w1, id);
      SameConclusion(w, w1, w', w', id, env, outcome);
    }
    if Reachable(w) { FollowReachable(w, w', id); }
  }
}
