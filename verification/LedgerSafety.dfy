// What every interleaving, crash and retry of the ledger protocol keeps.
module LedgerSafety {
  import opened LedgerProtocol

  // ----- The invariant --------------------------------------------------------

  ghost predicate SameAt<K, V>(m: map<K, V>, m': map<K, V>, k: K) {
    && (k in m <==> k in m')
    && (k in m ==> m[k] == m'[k])
  }

  // Locks are exclusive, name their owner, and are only held by live processes.
  ghost predicate LockOk(w: World, c: Call) {
    && (c.pc.Ended? || c.pc.Crashed? || c.pid in w.live)
    && (HoldsConfirmation(c.pc) ==>
      && Conf(c) in w.disk.confirmationLocks
      && (w.disk.confirmationLocks[Conf(c)].Held? ==> w.disk.confirmationLocks[Conf(c)].pid == c.pid))
    && (HoldsOperation(c.pc) ==>
      && Op(c) in w.disk.operationLocks
      && (w.disk.operationLocks[Op(c)].Held? ==> w.disk.operationLocks[Op(c)].pid == c.pid))
  }

  ghost predicate Exclusive(w: World) {
    forall i, j :: i in w.calls && j in w.calls && i != j ==> Apart(w.calls[i], w.calls[j])
  }

  ghost predicate Apart(a: Call, b: Call) {
    && (HoldsConfirmation(a.pc) && HoldsConfirmation(b.pc) ==> Conf(a) != Conf(b))
    && (HoldsOperation(a.pc) && HoldsOperation(b.pc) ==> Op(a) != Op(b))
  }

  // A durable record has the ledger's shape, its receipt repeats its digests, and
  // a consumption record of the same operation and intent stands behind it.
  ghost predicate RecordOk(d: Disk, op: string, r: Record) {
    && r.operationId == op
    && r.intentHash.IntentDigest?
    && r.command == r.intentHash.intent.command
    && Shaped(r)
    && (r.result.Some? ==> r.resultDigest == Some(ResultDigest(r.result.value)))
    && (r.receipt.Some? ==> ReceiptMatches(r.receipt.value, r))
    && r.confirmationId in d.consumptions
    && d.consumptions[r.confirmationId].operationId == op
    && d.consumptions[r.confirmationId].intentHash == r.intentHash
  }

  ghost predicate ReceiptMatches(receipt: Receipt, r: Record) {
    && receipt.operationId == r.operationId
    && receipt.command == r.command
    && receipt.intentHash == r.intentHash
    && receipt.confirmationId == r.confirmationId
    && r.effectDigest == Some(receipt.effectDigest)
    && r.resultDigest == Some(receipt.resultDigest)
  }

  ghost predicate Mine(c: Call, r: Record) {
    && r.intentHash == IntentHash(c.intent)
    && r.confirmationId == Conf(c)
    && r.operationId == Op(c)
  }

  ghost predicate Bound(d: Disk, c: Call) {
    && Conf(c) in d.consumptions
    && d.consumptions[Conf(c)].operationId == Op(c)
    && d.consumptions[Conf(c)].intentHash == IntentHash(c.intent)
    && d.consumptions[Conf(c)].confirmationHash == ConfirmationDigest(c.confirmation)
  }

  // `r'` is `r` one state later: nothing already written is written again.
  ghost predicate Follows(r: Record, r': Record) {
    && r'.operationId == r.operationId
    && r'.command == r.command
    && r'.intentHash == r.intentHash
    && r'.confirmationId == r.confirmationId
    && r'.sequence == r.sequence + 1
    && (r.effectDigest.Some? ==> r'.effectDigest == r.effectDigest)
    && (r.result.Some? ==> r'.result == r.result && r'.resultDigest == r.resultDigest)
    && (r.receipt.Some? ==> r'.receipt == r.receipt)
  }

  ghost predicate AtRecord(w: World, c: Call, r: Record) {
    && Op(c) in w.disk.records
    && w.disk.records[Op(c)] == r
    && Mine(c, r)
    && Bound(w.disk, c)
  }

  ghost predicate NoTemps(d: Disk, op: string) {
    forall k :: k in d.recordTemps && k.0 == op ==> !(1 <= k.1 <= 5)
  }

  ghost predicate OnlyTemp(d: Disk, op: string, r: Record) {
    && (op, r.sequence) in d.recordTemps
    && d.recordTemps[(op, r.sequence)] == r
    && forall k :: k in d.recordTemps && k.0 == op && 1 <= k.1 <= 5 ==> k.1 == r.sequence
  }

  // `next` may be renamed over what is on disk.
  ghost predicate Writable(w: World, c: Call, next: Record) {
    && Mine(c, next)
    && Bound(w.disk, c)
    && RecordOk(w.disk, Op(c), next)
    && (if Op(c) in w.disk.records then
          Follows(w.disk.records[Op(c)], next)
        else next == FirstRecord(c.intent, c.confirmation, c.now))
    && (next.sequence >= 3 ==> Op(c) in w.done && next.result == Some(w.done[Op(c)]))
    && (next.sequence < 3 ==> Op(c) !in w.done)
  }

  ghost predicate Answered(w: World, c: Call, outcome: Outcome) {
    outcome.Returned? ==>
      && Op(c) in w.disk.records
      && w.disk.records[Op(c)].state == Responded
      && w.disk.records[Op(c)].result == Some(outcome.result)
  }

  ghost predicate CallOk(w: World, c: Call) {
    match c.pc
    case Idle => true
    case ConfirmationLockCreated => true
    case ConfirmationLockOwned => true
    case ConfirmationReady => Conf(c) !in w.disk.consumptionTemps
    case OperationLockCreated => Conf(c) !in w.disk.consumptionTemps
    case OperationLockOwned => Conf(c) !in w.disk.consumptionTemps
    case OperationReady => Conf(c) !in w.disk.consumptionTemps && NoTemps(w.disk, Op(c))
    case Binding =>
      && Conf(c) !in w.disk.consumptionTemps && NoTemps(w.disk, Op(c))
      && Conf(c) !in w.disk.consumptions && Op(c) !in w.disk.records
      && Verified(c.intent, c.confirmation, c.trust, c.now)
    case BindingTemp =>
      && NoTemps(w.disk, Op(c))
      && Conf(c) !in w.disk.consumptions && Op(c) !in w.disk.records
      && Conf(c) in w.disk.consumptionTemps
      && w.disk.consumptionTemps[Conf(c)] == ConsumptionOf(c.intent, c.confirmation, c.now)
    case Holding(r) => NoTemps(w.disk, Op(c)) && AtRecord(w, c, r)
    case Opening(next) => NoTemps(w.disk, Op(c)) && Writable(w, c, next)
    case Renaming(next) => OnlyTemp(w.disk, Op(c), next) && Writable(w, c, next)
    case Reconciled(r) =>
      NoTemps(w.disk, Op(c)) && AtRecord(w, c, r) && r.state == EffectPrepared && Op(c) !in w.done
    case EffectPending(r) =>
      && NoTemps(w.disk, Op(c)) && AtRecord(w, c, r) && r.state == EffectPrepared && Op(c) !in w.done
      && Verified(c.intent, c.confirmation, c.trust, c.now)
    case EffectDone(r, result) =>
      && NoTemps(w.disk, Op(c)) && AtRecord(w, c, r) && r.state == EffectPrepared
      && Op(c) in w.done && w.done[Op(c)] == result
    case ReleasingOperation(outcome) => Answered(w, c, outcome)
    case ReleasingConfirmation(outcome) => Answered(w, c, outcome)
    case Ended(outcome) => Answered(w, c, outcome)
    case Crashed => true
  }

  // An effect that happened stands behind a durable digest; a durable result is
  // the result of the effect that happened.
  ghost predicate EffectOk(w: World, op: string) {
    && (op in w.done ==> op in w.disk.records && w.disk.records[op].sequence >= 2)
    && (op in w.disk.records && w.disk.records[op].sequence >= 3 ==>
      op in w.done && w.disk.records[op].result == Some(w.done[op]))
  }

  ghost predicate OncePerOperation(w: World) {
    && (forall i :: 0 <= i < |w.effects| ==> w.effects[i].operationId in w.done)
    && (forall i, j :: 0 <= i < j < |w.effects| ==> w.effects[i].operationId != w.effects[j].operationId)
    && (forall op :: op in w.done ==> exists i :: 0 <= i < |w.effects| && w.effects[i].operationId == op)
  }

  ghost predicate Inv(w: World) {
    && Exclusive(w)
    && (forall id :: id in w.calls ==> LockOk(w, w.calls[id]))
    && (forall id :: id in w.calls ==> CallOk(w, w.calls[id]))
    && (forall op :: op in w.disk.records ==> RecordOk(w.disk, op, w.disk.records[op]))
    && (forall op :: EffectOk(w, op))
    && OncePerOperation(w)
  }

  // ----- One action touches only what its own locks cover ---------------------

  ghost predicate SameConfirmation(w: World, w': World, k: string) {
    && SameAt(w.disk.consumptions, w'.disk.consumptions, k)
    && SameAt(w.disk.consumptionTemps, w'.disk.consumptionTemps, k)
    && SameAt(w.disk.confirmationLocks, w'.disk.confirmationLocks, k)
  }

  ghost predicate SameOperation(w: World, w': World, op: string) {
    && SameAt(w.disk.records, w'.disk.records, op)
    && SameAt(w.disk.operationLocks, w'.disk.operationLocks, op)
    && SameAt(w.done, w'.done, op)
    && SameTemps(w.disk.recordTemps, w'.disk.recordTemps, op)
  }

  ghost predicate SameTemps(m: map<(string, nat), Record>, m': map<(string, nat), Record>, op: string) {
    forall k: (string, nat) :: k.0 == op ==> SameAt(m, m', k)
  }

  // `w'` is `w` after one action of call `id`: only the files its own locks
  // cover may differ.
  ghost predicate Local(w: World, w': World, id: nat) {
    && id in w.calls && id in w'.calls
    && w'.live == w.live
    && w'.calls == w.calls[id := w.calls[id].(pc := w'.calls[id].pc)]
    && var c := w.calls[id];
    && (forall k :: k != Conf(c) || (!HoldsConfirmation(c.pc) && k in w.disk.confirmationLocks) ==> SameConfirmation(w, w', k))
    && (forall op :: op != Op(c) || (!HoldsOperation(c.pc) && op in w.disk.operationLocks) ==> SameOperation(w, w', op))
  }

  // What the invariant says about one call and the files under its locks.
  ghost predicate OwnPre(w: World, id: nat) {
    && id in w.calls
    && var c := w.calls[id];
    && LockOk(w, c)
    && CallOk(w, c)
    && (Op(c) in w.disk.records ==> RecordOk(w.disk, Op(c), w.disk.records[Op(c)]))
    && EffectOk(w, Op(c))
  }

  ghost predicate OwnPost(w: World, w': World, id: nat) {
    && OwnPre(w, id)
    && OwnPre(w', id)
    && Local(w, w', id)
    && var c, c' := w.calls[id], w'.calls[id];
    && (HoldsConfirmation(c'.pc) && !HoldsConfirmation(c.pc) ==> Conf(c) !in w.disk.confirmationLocks)
    && (HoldsOperation(c'.pc) && !HoldsOperation(c.pc) ==> Op(c) !in w.disk.operationLocks)
    && (Conf(c) in w.disk.consumptions ==> SameAt(w.disk.consumptions, w'.disk.consumptions, Conf(c)))
    && RecordMoves(w.disk.records, w'.disk.records, Op(c))
    && Logged(w, w', id)
  }

  // A durable record stays, or moves on by one state.
  ghost predicate RecordMoves(m: map<string, Record>, m': map<string, Record>, op: string) {
    op in m ==> op in m' && (m'[op] == m[op] || Follows(m[op], m'[op]))
  }

  // The log grows exactly when the outside world changes.
  ghost predicate Logged(w: World, w': World, id: nat)
    requires id in w.calls
  {
    var op := Op(w.calls[id]);
    || (w'.done == w.done && w'.effects == w.effects)
    || (&& op !in w.done
        && op in w'.done && w'.done.Keys == w.done.Keys + {op}
        && exists e: EffectEvent :: e.operationId == op && w'.effects == w.effects + [e])
  }

  lemma FrameFiles(w: World, w': World, o: Call)
    requires CallOk(w, o)
    requires HoldsConfirmation(o.pc) ==> SameConfirmation(w, w', Conf(o))
    requires HoldsOperation(o.pc) ==> SameOperation(w, w', Op(o))
    requires Op(o) in w.disk.records && w.disk.records[Op(o)].state == Responded ==> SameAt(w.disk.records, w'.disk.records, Op(o))
    ensures CallOk(w', o)
  {
    if HoldsOperation(o.pc) {
      assert forall k: (string, nat) :: k.0 == Op(o) ==> SameAt(w.disk.recordTemps, w'.disk.recordTemps, k);
    }
  }

  lemma Frame(w: World, w': World, id: nat, j: nat)
    requires OwnPost(w, w', id)
    requires j in w.calls && j != id
    requires Apart(w.calls[id], w.calls[j]) && LockOk(w, w.calls[j]) && CallOk(w, w.calls[j])
    ensures LockOk(w', w'.calls[j]) && CallOk(w', w'.calls[j])
    ensures Apart(w'.calls[id], w'.calls[j])
  {
    var c, o := w.calls[id], w.calls[j];
    assert w'.calls[j] == o;
    assert HoldsConfirmation(o.pc) ==> SameConfirmation(w, w', Conf(o));
    assert HoldsOperation(o.pc) ==> SameOperation(w, w', Op(o));
    if Op(o) != Op(c) { assert SameOperation(w, w', Op(o)); }
    FrameFiles(w, w', o);
  }

  lemma ComposeRecords(w: World, w': World, id: nat, op: string)
    requires OwnPost(w, w', id)
    requires op in w.disk.records ==> RecordOk(w.disk, op, w.disk.records[op])
    requires EffectOk(w, op)
    ensures op in w'.disk.records ==> RecordOk(w'.disk, op, w'.disk.records[op])
    ensures EffectOk(w', op)
  {
    var c := w.calls[id];
    if op != Op(c) {
      assert SameOperation(w, w', op);
      if op in w.disk.records {
        var k := w.disk.records[op].confirmationId;
        assert k != Conf(c) ==> SameConfirmation(w, w', k);
      }
    } else {
      assert w'.calls[id].intent == c.intent;
    }
  }

  lemma ComposeLog(w: World, w': World, id: nat)
    requires id in w.calls && Logged(w, w', id) && OncePerOperation(w)
    ensures OncePerOperation(w')
  {
    if !(w'.done == w.done && w'.effects == w.effects) {
      var op := Op(w.calls[id]);
      var e: EffectEvent :| e.operationId == op && w'.effects == w.effects + [e];
      assert w'.effects[|w.effects|].operationId == op;
      forall o | o in w'.done ensures exists i :: 0 <= i < |w'.effects| && w'.effects[i].operationId == o {
        if o != op {
          assert o in w.done;
          var i :| 0 <= i < |w.effects| && w.effects[i].operationId == o;
          assert w'.effects[i].operationId == o;
        }
      }
    }
  }

  lemma Compose(w: World, w': World, id: nat)
    requires Inv(w) && OwnPost(w, w', id)
    ensures Inv(w')
  {
    forall j | j in w'.calls ensures LockOk(w', w'.calls[j]) && CallOk(w', w'.calls[j]) {
      if j != id { Frame(w, w', id, j); }
    }
    forall i, j | i in w'.calls && j in w'.calls && i != j ensures Apart(w'.calls[i], w'.calls[j]) {
      if i == id { Frame(w, w', id, j); }
      else if j == id { Frame(w, w', id, i); }
      else { assert Apart(w.calls[i], w.calls[j]); }
    }
    forall op ensures EffectOk(w', op) && (op in w'.disk.records ==> RecordOk(w'.disk, op, w'.disk.records[op])) {
      ComposeRecords(w, w', id, op);
    }
    ComposeLog(w, w', id);
  }

  // ----- Every action keeps the invariant --------------------------------------

  // A move that leaves the disk and the outside world alone.
  lemma MoveOwn(w: World, w': World, id: nat)
    requires OwnPre(w, id) && id in w'.calls
    requires w'.disk == w.disk && w'.live == w.live && w'.done == w.done && w'.effects == w.effects
    requires w'.calls == w.calls[id := w.calls[id].(pc := w'.calls[id].pc)]
    requires CallOk(w', w'.calls[id])
    requires w.calls[id].pc.Ended? || w.calls[id].pc.Crashed? ==> w'.calls[id] == w.calls[id]
    requires HoldsConfirmation(w'.calls[id].pc) ==> HoldsConfirmation(w.calls[id].pc)
    requires HoldsOperation(w'.calls[id].pc) ==> HoldsOperation(w.calls[id].pc)
    ensures OwnPost(w, w', id)
  {
  }

  // nextRecord with the payload its state calls for is one step further.
  lemma NextFollows(
    d: Disk, c: Call, r: Record, state: ActionState,
    effectDigest: Option<Digest>, result: Option<string>, receipt: Option<Receipt>)
    requires Op(c) in d.records && d.records[Op(c)] == r && RecordOk(d, Op(c), r) && Mine(c, r)
    requires Sequence(state) == r.sequence + 1
    requires effectDigest.Some? <==> state == EffectPrepared
    requires result.Some? <==> state == EffectCommitted
    requires receipt.Some? <==> state == ReceiptCommitted
    requires receipt.Some? ==> receipt == BuildReceipt(c.intent, c.confirmation, r, c.now)
    requires receipt.Some? ==> Bound(d, c)
    ensures var next := NextRecord(r, state, c.now, effectDigest, result, receipt);
      && next.Some? && Mine(c, next.value) && RecordOk(d, Op(c), next.value) && Follows(r, next.value)
      && next.value.sequence == Sequence(state)
      && (result.Some? ==> next.value.result == result)
      && (result.None? ==> next.value.result == r.result)
  {
  }

  lemma TakeConfirmationLockOwn(w: World, id: nat)
    requires OwnPre(w, id)
    ensures OwnPost(w, TakeConfirmationLock(w, id), id)
  {
  }

  lemma SignConfirmationLockOwn(w: World, id: nat, acquiredAt: int)
    requires OwnPre(w, id)
    ensures OwnPost(w, SignConfirmationLock(w, id, acquiredAt), id)
  {
  }

  lemma SweepConfirmationTempOwn(w: World, id: nat)
    requires OwnPre(w, id)
    ensures OwnPost(w, SweepConfirmationTemp(w, id), id)
  {
  }

  lemma AbandonConfirmationLockOwn(w: World, id: nat, unlinked: bool)
    requires OwnPre(w, id)
    ensures OwnPost(w, AbandonConfirmationLock(w, id, unlinked), id)
  {
  }

  lemma TakeOperationLockOwn(w: World, id: nat)
    requires OwnPre(w, id)
    ensures OwnPost(w, TakeOperationLock(w, id), id)
  {
  }

  lemma SignOperationLockOwn(w: World, id: nat, acquiredAt: int)
    requires OwnPre(w, id)
    ensures OwnPost(w, SignOperationLock(w, id, acquiredAt), id)
  {
  }

  lemma SweepOperationTempsOwn(w: World, id: nat)
    requires OwnPre(w, id)
    ensures OwnPost(w, SweepOperationTemps(w, id), id)
  {
  }

  lemma AbandonOperationLockOwn(w: World, id: nat, unlinked: bool)
    requires OwnPre(w, id)
    ensures OwnPost(w, AbandonOperationLock(w, id, unlinked), id)
  {
  }

  lemma InspectLedgerOwn(w: World, id: nat)
    requires OwnPre(w, id)
    ensures OwnPost(w, InspectLedger(w, id), id)
  {
    MoveOwn(w, InspectLedger(w, id), id);
  }

  lemma WriteConsumptionTempOwn(w: World, id: nat)
    requires OwnPre(w, id)
    ensures OwnPost(w, WriteConsumptionTemp(w, id), id)
  {
  }

  lemma PublishConsumptionOwn(w: World, id: nat)
    requires OwnPre(w, id)
    ensures OwnPost(w, PublishConsumption(w, id), id)
  {
  }

  lemma OpenedTempOwn(w: World, w': World, id: nat, next: Record)
    requires OwnPre(w, id) && w.calls[id].pc == Opening(next)
    requires w' == At(w.(disk := w.disk.(recordTemps := w.disk.recordTemps[(Op(w.calls[id]), next.sequence) := next])), id, Renaming(next))
    ensures OwnPost(w, w', id)
  {
    assert OnlyTemp(w'.disk, Op(w.calls[id]), next);
    assert Writable(w', w'.calls[id], next);
  }

  lemma WriteRecordTempOwn(w: World, id: nat)
    requires OwnPre(w, id)
    ensures OwnPost(w, WriteRecordTemp(w, id), id)
  {
    var c := w.calls[id];
    if c.pc.Opening? && Shaped(c.pc.next) && (Op(c), c.pc.next.sequence) !in w.disk.recordTemps {
      OpenedTempOwn(w, WriteRecordTemp(w, id), id, c.pc.next);
    } else {
      MoveOwn(w, WriteRecordTemp(w, id), id);
    }
  }

  lemma PublishRecordOwn(w: World, id: nat)
    requires OwnPre(w, id)
    ensures OwnPost(w, PublishRecord(w, id), id)
  {
  }

  lemma PrepareEffectOwn(w: World, id: nat, valid: bool, digest: string)
    requires OwnPre(w, id)
    ensures OwnPost(w, PrepareEffect(w, id, valid, digest), id)
  {
    var c := w.calls[id];
    if c.pc.Holding? && c.pc.record.state == Authorized {
      NextFollows(w.disk, c, c.pc.record, EffectPrepared, Some(EffectDigest(digest)), None, None);
    }
    MoveOwn(w, PrepareEffect(w, id, valid, digest), id);
  }

  lemma ReconcileEffectOwn(w: World, id: nat)
    requires OwnPre(w, id)
    ensures OwnPost(w, ReconcileEffect(w, id), id)
  {
    var c := w.calls[id];
    if c.pc.Holding? && c.pc.record.state == EffectPrepared && Op(c) in w.done {
      NextFollows(w.disk, c, c.pc.record, EffectCommitted, None, Some(w.done[Op(c)]), None);
    }
    MoveOwn(w, ReconcileEffect(w, id), id);
  }

  lemma AdmitEffectOwn(w: World, id: nat, valid: bool)
    requires OwnPre(w, id)
    ensures OwnPost(w, AdmitEffect(w, id, valid), id)
  {
    MoveOwn(w, AdmitEffect(w, id, valid), id);
  }

  lemma ExecuteEffectOwn(w: World, id: nat, result: string)
    requires OwnPre(w, id)
    ensures OwnPost(w, ExecuteEffect(w, id, result), id)
  {
  }

  lemma KeepEffectOwn(w: World, id: nat)
    requires OwnPre(w, id)
    ensures OwnPost(w, KeepEffect(w, id), id)
  {
    var c := w.calls[id];
    if c.pc.EffectDone? {
      NextFollows(w.disk, c, c.pc.record, EffectCommitted, None, Some(c.pc.result), None);
    }
    MoveOwn(w, KeepEffect(w, id), id);
  }

  lemma DeliverReceiptOwn(w: World, id: nat)
    requires OwnPre(w, id)
    ensures OwnPost(w, DeliverReceipt(w, id), id)
  {
    var c := w.calls[id];
    if c.pc.Holding? && c.pc.record.state == EffectCommitted {
      var receipt := BuildReceipt(c.intent, c.confirmation, c.pc.record, c.now);
      if receipt.Some? {
        NextFollows(w.disk, c, c.pc.record, ReceiptCommitted, None, None, receipt);
      }
    }
    MoveOwn(w, DeliverReceipt(w, id), id);
  }

  lemma MarkRespondedOwn(w: World, id: nat)
    requires OwnPre(w, id)
    ensures OwnPost(w, MarkResponded(w, id), id)
  {
    var c := w.calls[id];
    if c.pc.Holding? && c.pc.record.state == ReceiptCommitted {
      NextFollows(w.disk, c, c.pc.record, Responded, None, None, None);
    }
    MoveOwn(w, MarkResponded(w, id), id);
  }

  lemma AnswerOwn(w: World, id: nat)
    requires OwnPre(w, id)
    ensures OwnPost(w, Answer(w, id), id)
  {
    MoveOwn(w, Answer(w, id), id);
  }

  lemma FailInsideOwn(w: World, id: nat)
    requires OwnPre(w, id)
    ensures OwnPost(w, FailInside(w, id), id)
  {
    MoveOwn(w, FailInside(w, id), id);
  }

  lemma DropOperationLockOwn(w: World, id: nat, unlinked: bool)
    requires OwnPre(w, id)
    ensures OwnPost(w, DropOperationLock(w, id, unlinked), id)
  {
  }

  lemma DropConfirmationLockOwn(w: World, id: nat, unlinked: bool)
    requires OwnPre(w, id)
    ensures OwnPost(w, DropConfirmationLock(w, id, unlinked), id)
  {
  }

  predicate LockAction(a: Action) {
    || a.CreateConfirmationLock? || a.OwnConfirmationLock? || a.ClearConfirmationTemp? || a.FailConfirmationLock?
    || a.CreateOperationLock? || a.OwnOperationLock? || a.ClearOperationTemps? || a.FailOperationLock?
    || a.ReleaseOperationLock? || a.ReleaseConfirmationLock?
  }

  lemma DoLockOwn(w: World, id: nat, a: Action)
    requires OwnPre(w, id) && LockAction(a)
    ensures OwnPost(w, Do(w, id, a), id)
  {
    match a
    case CreateConfirmationLock => TakeConfirmationLockOwn(w, id);
    case OwnConfirmationLock(acquiredAt) => SignConfirmationLockOwn(w, id, acquiredAt);
    case ClearConfirmationTemp => SweepConfirmationTempOwn(w, id);
    case FailConfirmationLock(unlinked) => AbandonConfirmationLockOwn(w, id, unlinked);
    case CreateOperationLock => TakeOperationLockOwn(w, id);
    case OwnOperationLock(acquiredAt) => SignOperationLockOwn(w, id, acquiredAt);
    case ClearOperationTemps => SweepOperationTempsOwn(w, id);
    case FailOperationLock(unlinked) => AbandonOperationLockOwn(w, id, unlinked);
    case ReleaseOperationLock(unlinked) => DropOperationLockOwn(w, id, unlinked);
    case ReleaseConfirmationLock(unlinked) => DropConfirmationLockOwn(w, id, unlinked);
  }

  lemma DoFileOwn(w: World, id: nat, a: Action)
    requires OwnPre(w, id) && (a.OpenConsumption? || a.RenameConsumption? || a.OpenRecord? || a.RenameRecord?)
    ensures OwnPost(w, Do(w, id, a), id)
  {
    match a
    case OpenConsumption => WriteConsumptionTempOwn(w, id);
    case RenameConsumption => PublishConsumptionOwn(w, id);
    case OpenRecord => WriteRecordTempOwn(w, id);
    case RenameRecord => PublishRecordOwn(w, id);
  }

  lemma DoCallbackOwn(w: World, id: nat, a: Action)
    requires OwnPre(w, id) && !LockAction(a)
    ensures OwnPost(w, Do(w, id, a), id)
  {
    match a
    case Inspect => InspectLedgerOwn(w, id);
    case OpenConsumption => DoFileOwn(w, id, a);
    case RenameConsumption => DoFileOwn(w, id, a);
    case Prepare(valid, digest) => PrepareEffectOwn(w, id, valid, digest);
    case OpenRecord => DoFileOwn(w, id, a);
    case RenameRecord => DoFileOwn(w, id, a);
    case Reconcile => ReconcileEffectOwn(w, id);
    case StartEffect(valid) => AdmitEffectOwn(w, id, valid);
    case RunEffect(result) => ExecuteEffectOwn(w, id, result);
    case CommitEffect => KeepEffectOwn(w, id);
    case RecordReceipt => DeliverReceiptOwn(w, id);
    case Respond => MarkRespondedOwn(w, id);
    case Finish => AnswerOwn(w, id);
    case Fail => FailInsideOwn(w, id);
  }

  lemma DoOwn(w: World, id: nat, a: Action)
    requires OwnPre(w, id)
    ensures OwnPost(w, Do(w, id, a), id)
  {
    if LockAction(a) { DoLockOwn(w, id, a); } else { DoCallbackOwn(w, id, a); }
  }

  // What a call needs of the files does not depend on which processes live.
  lemma SameFilesSameCall(w: World, w': World, c: Call)
    requires w'.disk == w.disk && w'.done == w.done && CallOk(w, c)
    ensures CallOk(w', c)
  {
  }

  lemma SameFilesSameRecords(w: World, w': World)
    requires Inv(w) && w'.disk == w.disk && w'.done == w.done && w'.effects == w.effects
    ensures forall op :: op in w'.disk.records ==> RecordOk(w'.disk, op, w'.disk.records[op])
    ensures forall op :: EffectOk(w', op)
    ensures OncePerOperation(w')
  {
    forall op ensures EffectOk(w', op) { assert EffectOk(w, op); }
  }

  lemma CrashKeepsCall(w: World, pid: nat, id: nat)
    requires id in w.calls && LockOk(w, w.calls[id]) && CallOk(w, w.calls[id])
    ensures var w' := Apply(w, Crash(pid)); id in w'.calls && LockOk(w', w'.calls[id]) && CallOk(w', w'.calls[id])
  {
    var w' := Apply(w, Crash(pid));
    if w'.calls[id] == w.calls[id] { SameFilesSameCall(w, w', w.calls[id]); }
  }

  lemma CrashKeepsApart(w: World, pid: nat, i: nat, j: nat)
    requires i in w.calls && j in w.calls && Apart(w.calls[i], w.calls[j])
    ensures var w' := Apply(w, Crash(pid)); i in w'.calls && j in w'.calls && Apart(w'.calls[i], w'.calls[j])
  {
  }

  lemma CrashKeeps(w: World, pid: nat)
    requires Inv(w)
    ensures Inv(Apply(w, Crash(pid)))
  {
    var w' := Apply(w, Crash(pid));
    assert w'.calls.Keys == w.calls.Keys;
    forall id | id in w'.calls ensures LockOk(w', w'.calls[id]) && CallOk(w', w'.calls[id]) { CrashKeepsCall(w, pid, id); }
    forall i, j | i in w'.calls && j in w'.calls && i != j ensures Apart(w'.calls[i], w'.calls[j]) { CrashKeepsApart(w, pid, i, j); }
    SameFilesSameRecords(w, w');
  }

  // The recorded owner is dead, so no call is inside the lock that goes away.
  lemma RecoverOperationLockKeeps(w: World, op: string, pid: nat, now: int, minimumAge: int)
    requires Inv(w)
    ensures Inv(Apply(w, RecoverOperationLock(op, pid, now, minimumAge)))
  {
    var w' := Apply(w, RecoverOperationLock(op, pid, now, minimumAge));
    if w' != w {
      forall id | id in w'.calls ensures LockOk(w', w'.calls[id]) && CallOk(w', w'.calls[id]) {
        var c := w.calls[id];
        assert LockOk(w, c) && CallOk(w, c);
        if HoldsOperation(c.pc) {
          assert Op(c) != op;
          FrameFiles(w, w', c);
        }
      }
      forall o ensures EffectOk(w', o) { assert EffectOk(w, o); }
    }
  }

  lemma RecoverConfirmationLockKeeps(w: World, k: string, pid: nat, now: int, minimumAge: int)
    requires Inv(w)
    ensures Inv(Apply(w, RecoverConfirmationLock(k, pid, now, minimumAge)))
  {
    var w' := Apply(w, RecoverConfirmationLock(k, pid, now, minimumAge));
    if w' != w {
      forall id | id in w'.calls ensures LockOk(w', w'.calls[id]) && CallOk(w', w'.calls[id]) {
        var c := w.calls[id];
        assert LockOk(w, c) && CallOk(w, c);
        if HoldsConfirmation(c.pc) {
          assert Conf(c) != k;
          FrameFiles(w, w', c);
        }
      }
      forall o ensures EffectOk(w', o) { assert EffectOk(w, o); }
    }
  }

  lemma BeginKeepsCall(w: World, s: Step, id: nat)
    requires (s.Begin? || s.Spawn?) && id in Apply(w, s).calls
    requires id in w.calls ==> LockOk(w, w.calls[id]) && CallOk(w, w.calls[id])
    ensures var w' := Apply(w, s); LockOk(w', w'.calls[id]) && CallOk(w', w'.calls[id])
  {
    if id in w.calls { SameFilesSameCall(w, Apply(w, s), w.calls[id]); }
  }

  lemma BeginKeepsApart(w: World, s: Step, i: nat, j: nat)
    requires (s.Begin? || s.Spawn?) && Exclusive(w) && i in Apply(w, s).calls && j in Apply(w, s).calls && i != j
    ensures Apart(Apply(w, s).calls[i], Apply(w, s).calls[j])
  {
    if i in w.calls && j in w.calls { assert Apart(w.calls[i], w.calls[j]); }
  }

  lemma BeginKeeps(w: World, s: Step)
    requires Inv(w) && (s.Begin? || s.Spawn?)
    ensures Inv(Apply(w, s))
  {
    var w' := Apply(w, s);
    forall id | id in w'.calls ensures LockOk(w', w'.calls[id]) && CallOk(w', w'.calls[id]) { BeginKeepsCall(w, s, id); }
    forall i, j | i in w'.calls && j in w'.calls && i != j ensures Apart(w'.calls[i], w'.calls[j]) { BeginKeepsApart(w, s, i, j); }
    SameFilesSameRecords(w, w');
  }

  lemma StepKeepsInvariant(w: World, s: Step)
    requires Inv(w)
    ensures Inv(Apply(w, s))
  {
    match s
    case Spawn(_) => BeginKeeps(w, s);
    case Begin(_, _, _, _, _, _) => BeginKeeps(w, s);
    case Crash(pid) => CrashKeeps(w, pid);
    case RecoverOperationLock(op, pid, now, minimumAge) => RecoverOperationLockKeeps(w, op, pid, now, minimumAge);
    case RecoverConfirmationLock(k, pid, now, minimumAge) => RecoverConfirmationLockKeeps(w, k, pid, now, minimumAge);
    case Act(id, a) =>
      if id in w.calls {
        assert EffectOk(w, Op(w.calls[id]));
        DoOwn(w, id, a);
        Compose(w, Do(w, id, a), id);
      }
  }

  lemma {:induction false} RunKeepsInvariant(w: World, steps: seq<Step>)
    requires Inv(w)
    ensures Inv(Run(w, steps))
    decreases |steps|
  {
    if steps != [] {
      StepKeepsInvariant(w, steps[0]);
      RunKeepsInvariant(Apply(w, steps[0]), steps[1..]);
    }
  }
}
