// The guarantees of the confirmed-action protocol over every run: any number of
// calls, operations, confirmations and processes, in any interleaving, with a
// crash possible between any two steps.
module LedgerTheorems {
  import opened LedgerProtocol
  import opened LedgerSafety

  // ----- History --------------------------------------------------------------

  // What is known about an operation only ever grows.
  ghost predicate Later(r: Record, r': Record) {
    && r'.operationId == r.operationId
    && r'.command == r.command
    && r'.intentHash == r.intentHash
    && r'.confirmationId == r.confirmationId
    && r.sequence <= r'.sequence
    && (r.sequence == r'.sequence ==> r' == r)
    && (r.effectDigest.Some? ==> r'.effectDigest == r.effectDigest)
    && (r.result.Some? ==> r'.result == r.result && r'.resultDigest == r.resultDigest)
    && (r.receipt.Some? ==> r'.receipt == r.receipt)
  }

  ghost predicate Extends(w: World, w': World) {
    && (forall k :: k in w.disk.consumptions ==> k in w'.disk.consumptions && w'.disk.consumptions[k] == w.disk.consumptions[k])
    && (forall op :: op in w.disk.records ==> op in w'.disk.records && Later(w.disk.records[op], w'.disk.records[op]))
    && (forall op :: op in w.done ==> op in w'.done && w'.done[op] == w.done[op])
    && w.effects <= w'.effects
  }

  lemma ActionExtends(w: World, w': World, id: nat)
    requires OwnPost(w, w', id)
    ensures Extends(w, w')
  {
    var c := w.calls[id];
    forall k | k in w.disk.consumptions
      ensures k in w'.disk.consumptions && w'.disk.consumptions[k] == w.disk.consumptions[k]
    {
      assert k != Conf(c) ==> SameConfirmation(w, w', k);
      assert SameAt(w.disk.consumptions, w'.disk.consumptions, k);
    }
    forall op | op in w.disk.records
      ensures op in w'.disk.records && Later(w.disk.records[op], w'.disk.records[op])
    {
      assert op != Op(c) ==> SameOperation(w, w', op);
    }
    forall op | op in w.done ensures op in w'.done && w'.done[op] == w.done[op] {
      assert op != Op(c) ==> SameOperation(w, w', op);
    }
  }

  lemma ActionMovesOneState(w: World, w': World, id: nat)
    requires OwnPost(w, w', id)
    ensures forall op :: op in w.disk.records ==>
      op in w'.disk.records && w'.disk.records[op].sequence <= w.disk.records[op].sequence + 1
  {
    forall op | op in w.disk.records
      ensures op in w'.disk.records && w'.disk.records[op].sequence <= w.disk.records[op].sequence + 1
    {
      assert op != Op(w.calls[id]) ==> SameOperation(w, w', op);
    }
  }

  lemma EnvironmentKeeps(w: World, s: Step)
    requires !s.Act?
    ensures var w' := Apply(w, s);
      && w'.disk.consumptions == w.disk.consumptions && w'.disk.records == w.disk.records
      && w'.done == w.done && w'.effects == w.effects && w'.receipts == w.receipts
  {
  }

  // One step never rewrites what is durable, and moves a record by at most one
  // state.
  lemma StepExtends(w: World, s: Step)
    requires Inv(w)
    ensures Extends(w, Apply(w, s))
    ensures forall op :: op in w.disk.records ==>
      && op in Apply(w, s).disk.records
      && Apply(w, s).disk.records[op].sequence <= w.disk.records[op].sequence + 1
  {
    if !s.Act? {
      EnvironmentKeeps(w, s);
    } else if s.call in w.calls {
      assert EffectOk(w, Op(w.calls[s.call]));
      DoOwn(w, s.call, s.action);
      ActionExtends(w, Do(w, s.call, s.action), s.call);
      ActionMovesOneState(w, Do(w, s.call, s.action), s.call);
    }
  }

  lemma ExtendsTransitive(a: World, b: World, c: World)
    requires Extends(a, b) && Extends(b, c)
    ensures Extends(a, c)
  {
    forall op | op in a.disk.records
      ensures op in c.disk.records && Later(a.disk.records[op], c.disk.records[op])
    {
      assert Later(a.disk.records[op], b.disk.records[op]);
      assert Later(b.disk.records[op], c.disk.records[op]);
    }
  }

  lemma {:induction false} RunExtends(w: World, steps: seq<Step>)
    requires Inv(w)
    ensures Extends(w, Run(w, steps))
    decreases |steps|
  {
    if steps != [] {
      StepKeepsInvariant(w, steps[0]);
      StepExtends(w, steps[0]);
      RunExtends(Apply(w, steps[0]), steps[1..]);
      ExtendsTransitive(w, Apply(w, steps[0]), Run(w, steps));
    }
  }

  lemma {:induction false} RunSplits(w: World, a: seq<Step>, b: seq<Step>)
    ensures Run(w, a + b) == Run(Run(w, a), b)
    decreases |a|
  {
    if a == [] {
      assert a + b == b;
    } else {
      assert (a + b)[1..] == a[1..] + b;
      RunSplits(Apply(w, a[0]), a[1..], b);
    }
  }

  ghost predicate Reachable(w: World) {
    exists steps :: Run(EmptyWorld(), steps) == w
  }

  lemma StepReachable(w: World, s: Step)
    ensures Reachable(w) ==> Reachable(Apply(w, s))
  {
    if Reachable(w) {
      var steps :| Run(EmptyWorld(), steps) == w;
      RunSplits(EmptyWorld(), steps, [s]);
      assert Run(w, [s]) == Run(Apply(w, s), []);
      assert Run(EmptyWorld(), steps + [s]) == Apply(w, s);
    }
  }

  lemma ReachableInvariant(w: World)
    requires Reachable(w)
    ensures Inv(w)
  {
    var steps :| Run(EmptyWorld(), steps) == w;
    RunKeepsInvariant(EmptyWorld(), steps);
  }

  // ----- Main results ---------------------------------------------------------

  // A confirmation stays bound to one operation and intent for ever, a record
  // never changes its operation, intent or confirmation, never goes back, and its
  // digest, result and receipt are written once; every record on disk is shaped
  // as the schema says, stands behind a matching consumption record, and carries
  // a receipt with the digests of the record.
  lemma DurableStateIsAppendOnly(before: seq<Step>, after: seq<Step>)
    ensures var w, w' := Run(EmptyWorld(), before), Run(EmptyWorld(), before + after);
      && Extends(w, w')
      && (forall op :: op in w.disk.records ==> RecordOk(w.disk, op, w.disk.records[op]))
  {
    RunKeepsInvariant(EmptyWorld(), before);
    RunSplits(EmptyWorld(), before, after);
    RunExtends(Run(EmptyWorld(), before), after);
  }

  // However calls interleave, crash and retry, an operation's effect is executed
  // at most once, and exactly for the operations it has changed something for.
  lemma EffectAtMostOnce(steps: seq<Step>)
    ensures var w := Run(EmptyWorld(), steps);
      && (forall i, j :: 0 <= i < j < |w.effects| ==> w.effects[i].operationId != w.effects[j].operationId)
      && (forall op :: op in w.done <==> exists i :: 0 <= i < |w.effects| && w.effects[i].operationId == op)
  {
    RunKeepsInvariant(EmptyWorld(), steps);
  }

  // The only step that executes an effect belongs to a call that is inside the
  // validity of its intent and its confirmation, finds the effect not done, and
  // finds its own digest durable in a record in state effect_prepared, behind its
  // own consumption record. A call after expiry starts nothing.
  lemma EffectNeedsAuthority(w: World, s: Step)
    requires Reachable(w)
    requires Apply(w, s).effects != w.effects
    ensures s.Act? && s.action.RunEffect? && s.call in w.calls
    ensures var c := w.calls[s.call];
      && Verified(c.intent, c.confirmation, c.trust, c.now)
      && Op(c) !in w.done
      && Bound(w.disk, c)
      && Op(c) in w.disk.records
      && var r := w.disk.records[Op(c)];
      && Mine(c, r) && r.state == EffectPrepared && r.effectDigest.Some?
      && Apply(w, s).effects == w.effects + [EffectEvent(Op(c), s.call, r.effectDigest)]
  {
    ReachableInvariant(w);
    assert s.Act? && s.call in w.calls;
    assert s.action.RunEffect? && w.calls[s.call].pc.EffectPending? by {
      if !s.action.RunEffect? { OnlyRunEffectExecutes(w, s.call, s.action); }
    }
    assert CallOk(w, w.calls[s.call]);
  }

  // What a confirmation has to be to count now: it binds intent and command, is signed
  // under the pinned, unrevoked key, outlives neither the intent nor the longest time
  // allowed, and is in force.
  lemma VerifiedExactly(i: Intent, k: Confirmation, t: Trust, now: int)
    ensures Verified(i, k, t, now) <==>
      && k in t.signed && k.keyId == t.keyId && k.keyGeneration == t.keyGeneration && k.keyId !in t.revoked
      && k.intentHash == IntentDigest(i) && k.command == i.command && (i.details, k.details) in t.boundDetails
      && k.expiresAt - k.issuedAt <= t.maxTtl && i.issuedAt <= k.issuedAt <= now < k.expiresAt <= i.expiresAt
    ensures Verified(i, k, t, now) <==> Verified(i, k, t, k.issuedAt) && k.issuedAt <= now < k.expiresAt
  {
  }

  // In fields: the confirmation that starts an effect binds this intent and its command,
  // is signed under the pinned key and not under a revoked one, does not outlive the
  // intent or the longest time allowed, and both are in force now.
  lemma EffectNeedsSignature(w: World, s: Step)
    requires Reachable(w) && Apply(w, s).effects != w.effects
    ensures s.Act? && s.call in w.calls
    ensures var c := w.calls[s.call]; var k, i, t := c.confirmation, c.intent, c.trust;
      && k in t.signed && k.keyId == t.keyId && k.keyGeneration == t.keyGeneration && k.keyId !in t.revoked
      && k.intentHash == IntentDigest(i) && k.command == i.command && (i.details, k.details) in t.boundDetails
      && k.expiresAt - k.issuedAt <= t.maxTtl && i.issuedAt <= k.issuedAt <= c.now < k.expiresAt <= i.expiresAt
  {
    EffectNeedsAuthority(w, s);
  }

  lemma OnlyRunEffectExecutes(w: World, id: nat, a: Action)
    requires id in w.calls && !a.RunEffect?
    ensures Do(w, id, a).effects == w.effects && Do(w, id, a).done == w.done
  {
    if LockAction(a) {
    } else {
    }
  }

  lemma AnswerIsDurable(w: World, i: nat)
    requires Inv(w) && i in w.calls && w.calls[i].pc.Ended? && w.calls[i].pc.outcome.Returned?
    ensures var op := Op(w.calls[i]);
      && op in w.done && w.calls[i].pc.outcome == Returned(w.done[op])
      && op in w.disk.records && w.disk.records[op].state == Responded
  {
    assert CallOk(w, w.calls[i]);
    assert EffectOk(w, Op(w.calls[i]));
    assert RecordOk(w.disk, Op(w.calls[i]), w.disk.records[Op(w.calls[i])]);
  }

  // Every call that returns for an operation returns the same result, which is
  // the result of the one effect that was executed and the result on disk.
  lemma AllAnswersAgree(steps: seq<Step>, i: nat, j: nat)
    ensures var w := Run(EmptyWorld(), steps);
      i in w.calls && j in w.calls &&
      w.calls[i].pc.Ended? && w.calls[i].pc.outcome.Returned? &&
      w.calls[j].pc.Ended? && w.calls[j].pc.outcome.Returned? &&
      Op(w.calls[i]) == Op(w.calls[j]) ==>
        && w.calls[i].pc.outcome == w.calls[j].pc.outcome
        && Op(w.calls[i]) in w.done && w.done[Op(w.calls[i])] == w.calls[i].pc.outcome.result
        && Op(w.calls[i]) in w.disk.records && w.disk.records[Op(w.calls[i])].state == Responded
  {
    RunKeepsInvariant(EmptyWorld(), steps);
    var w := Run(EmptyWorld(), steps);
    if i in w.calls && w.calls[i].pc.Ended? && w.calls[i].pc.outcome.Returned? { AnswerIsDurable(w, i); }
    if j in w.calls && w.calls[j].pc.Ended? && w.calls[j].pc.outcome.Returned? { AnswerIsDurable(w, j); }
  }

  // No temporary file left by a crash is ever in the way of a call that has
  // passed its lock: exclusive creation succeeds and the rename finds the file.
  lemma StaleConsumptionNeverBlocks(w: World, id: nat)
    requires Reachable(w) && id in w.calls
    ensures var c := w.calls[id];
      && (c.pc.Binding? ==> WriteConsumptionTemp(w, id).calls[id].pc == BindingTemp)
      && (c.pc.BindingTemp? ==>
        && PublishConsumption(w, id).calls[id].pc.Opening?
        && PublishConsumption(w, id).disk.consumptions ==
           w.disk.consumptions[Conf(c) := ConsumptionOf(c.intent, c.confirmation, c.now)])
  {
    ReachableInvariant(w);
    assert CallOk(w, w.calls[id]);
  }

  lemma StaleRecordNeverBlocks(w: World, id: nat)
    requires Reachable(w) && id in w.calls
    ensures var c := w.calls[id];
      && (c.pc.Opening? ==> WriteRecordTemp(w, id).calls[id].pc == Renaming(c.pc.next))
      && (c.pc.Renaming? ==>
        && PublishRecord(w, id).calls[id].pc == Holding(c.pc.next)
        && PublishRecord(w, id).disk.records == w.disk.records[Op(c) := c.pc.next])
  {
    ReachableInvariant(w);
    OwnFacts(w, id);
  }

  lemma OwnFacts(w: World, id: nat)
    requires Inv(w) && id in w.calls
    ensures CallOk(w, w.calls[id])
  {
  }

  // ----- Receipts -------------------------------------------------------------

  ghost predicate ReceiptKnown(w: World, receipt: Receipt) {
    && receipt.operationId in w.disk.records
    && var r := w.disk.records[receipt.operationId];
    && r.sequence >= 3
    && ReceiptMatches(receipt, r)
    && r.intentHash.IntentDigest?
    && receipt.createdAt == r.intentHash.intent.issuedAt
    && r.confirmationId in w.disk.consumptions
    && var k := w.disk.consumptions[r.confirmationId].confirmationHash;
    && k.ConfirmationDigest? && receipt.keyId == k.confirmation.keyId && receipt.keyGeneration == k.confirmation.keyGeneration
  }

  ghost predicate ReceiptsKnown(w: World) {
    forall i :: 0 <= i < |w.receipts| ==> ReceiptKnown(w, w.receipts[i])
  }

  lemma ReceiptStaysKnown(w: World, w': World, receipt: Receipt)
    requires Extends(w, w') && ReceiptKnown(w, receipt)
    requires RecordOk(w.disk, receipt.operationId, w.disk.records[receipt.operationId])
    ensures ReceiptKnown(w', receipt)
  {
    assert Later(w.disk.records[receipt.operationId], w'.disk.records[receipt.operationId]);
  }

  lemma ActionReceipts(w: World, id: nat, a: Action)
    requires id in w.calls && CallOk(w, w.calls[id])
    requires Op(w.calls[id]) in w.disk.records ==> RecordOk(w.disk, Op(w.calls[id]), w.disk.records[Op(w.calls[id])])
    ensures Do(w, id, a).receipts == w.receipts ||
      (Do(w, id, a).disk == w.disk && exists receipt :: Do(w, id, a).receipts == w.receipts + [receipt] && ReceiptKnown(w, receipt))
  {
    if !a.RecordReceipt? {
      OtherActionsDeliverNothing(w, id, a);
    } else if w.calls[id].pc.Holding? && w.calls[id].pc.record.state == EffectCommitted {
      var receipt := BuildReceipt(w.calls[id].intent, w.calls[id].confirmation, w.calls[id].pc.record, w.calls[id].now);
      if receipt.Some? {
        assert ReceiptKnown(w, receipt.value);
      }
    }
  }

  lemma OtherActionsDeliverNothing(w: World, id: nat, a: Action)
    requires id in w.calls && !a.RecordReceipt?
    ensures Do(w, id, a).receipts == w.receipts
  {
    if LockAction(a) {
    } else {
    }
  }

  lemma StepKeepsReceipts(w: World, s: Step)
    requires Inv(w) && ReceiptsKnown(w)
    ensures ReceiptsKnown(Apply(w, s))
  {
    var w' := Apply(w, s);
    StepExtends(w, s);
    if !s.Act? { EnvironmentKeeps(w, s); }
    else if s.call in w.calls { ActionReceipts(w, s.call, s.action); }
    forall i | 0 <= i < |w'.receipts| ensures ReceiptKnown(w', w'.receipts[i]) {
      if i < |w.receipts| {
        assert ReceiptKnown(w, w.receipts[i]);
        ReceiptStaysKnown(w, w', w.receipts[i]);
      }
    }
  }

  lemma {:induction false} RunKeepsReceipts(w: World, steps: seq<Step>)
    requires Inv(w) && ReceiptsKnown(w)
    ensures ReceiptsKnown(Run(w, steps))
    decreases |steps|
  {
    if steps != [] {
      StepKeepsInvariant(w, steps[0]);
      StepKeepsReceipts(w, steps[0]);
      RunKeepsReceipts(Apply(w, steps[0]), steps[1..]);
    }
  }

  // Retries may deliver the receipt of an operation again; the copies differ in
  // nothing but the completion time of the retry.
  lemma ReceiptCopiesAgree(steps: seq<Step>, i: nat, j: nat)
    ensures var w := Run(EmptyWorld(), steps);
      i < |w.receipts| && j < |w.receipts| && w.receipts[i].operationId == w.receipts[j].operationId ==>
        w.receipts[i] == w.receipts[j].(completedAt := w.receipts[i].completedAt)
  {
    RunKeepsReceipts(EmptyWorld(), steps);
    var w := Run(EmptyWorld(), steps);
    if i < |w.receipts| && j < |w.receipts| {
      assert ReceiptKnown(w, w.receipts[i]) && ReceiptKnown(w, w.receipts[j]);
    }
  }

  // ----- A record with a receipt was handed out ---------------------------------------

  ghost predicate RecordDelivered(w: World, r: Record) {
    r.receipt.Some? ==> r.receipt.value in w.receipts
  }

  // What a call is about to write.
  ghost predicate NextDelivered(w: World, pc: Pc) {
    pc.Opening? || pc.Renaming? ==> RecordDelivered(w, pc.next)
  }

  ghost predicate ReceiptsDelivered(w: World) {
    && (forall op :: op in w.disk.records ==> RecordDelivered(w, w.disk.records[op]))
    && (forall id :: id in w.calls ==> NextDelivered(w, w.calls[id].pc))
  }

  ghost predicate OwnDelivered(w: World, id: nat) {
    && id in w.calls && NextDelivered(w, w.calls[id].pc)
    && (Op(w.calls[id]) in w.disk.records ==> RecordDelivered(w, w.disk.records[Op(w.calls[id])]))
  }

  lemma LockActionDelivers(w: World, id: nat, a: Action)
    requires OwnDelivered(w, id) && LockAction(a)
    ensures OwnDelivered(Do(w, id, a), id) && Do(w, id, a).receipts == w.receipts
  {
  }

  predicate FileAction(a: Action) {
    a.Inspect? || a.OpenConsumption? || a.RenameConsumption? || a.OpenRecord? || a.RenameRecord? || a.Finish? || a.Fail?
  }

  lemma FileActionDelivers(w: World, id: nat, a: Action)
    requires OwnDelivered(w, id) && CallOk(w, w.calls[id]) && FileAction(a)
    ensures OwnDelivered(Do(w, id, a), id) && Do(w, id, a).receipts == w.receipts
  {
  }

  lemma OtherActionDelivers(w: World, id: nat, a: Action)
    requires OwnDelivered(w, id) && CallOk(w, w.calls[id]) && !FileAction(a) && !LockAction(a)
    ensures OwnDelivered(Do(w, id, a), id) && w.receipts <= Do(w, id, a).receipts
  {
  }

  lemma ActionDelivers(w: World, id: nat, a: Action)
    requires OwnDelivered(w, id) && CallOk(w, w.calls[id])
    ensures OwnDelivered(Do(w, id, a), id) && w.receipts <= Do(w, id, a).receipts
  {
    if LockAction(a) { LockActionDelivers(w, id, a); }
    else if FileAction(a) { FileActionDelivers(w, id, a); }
    else { OtherActionDelivers(w, id, a); }
  }

  lemma StepDelivers(w: World, s: Step)
    requires Inv(w) && ReceiptsDelivered(w)
    ensures ReceiptsDelivered(Apply(w, s))
  {
    if s.Act? && s.call in w.calls {
      var w' := Do(w, s.call, s.action);
      DoOwn(w, s.call, s.action);
      ActionDelivers(w, s.call, s.action);
      OthersStayDelivered(w, w', s.call);
    } else {
      EnvironmentKeepsDelivered(w, s);
    }
  }

  lemma OthersStayDelivered(w: World, w': World, id: nat)
    requires OwnPost(w, w', id) && ReceiptsDelivered(w) && OwnDelivered(w', id) && w.receipts <= w'.receipts
    ensures ReceiptsDelivered(w')
  {
    forall op | op in w'.disk.records ensures RecordDelivered(w', w'.disk.records[op]) {
      if op != Op(w.calls[id]) {
        assert SameOperation(w, w', op);
        assert RecordDelivered(w, w.disk.records[op]);
      }
    }
    forall j | j in w'.calls ensures NextDelivered(w', w'.calls[j].pc) {
      if j != id { assert NextDelivered(w, w.calls[j].pc); }
    }
  }

  lemma EnvironmentKeepsDelivered(w: World, s: Step)
    requires ReceiptsDelivered(w) && (!s.Act? || s.call !in w.calls)
    ensures ReceiptsDelivered(Apply(w, s))
  {
    var w' := Apply(w, s);
    forall j | j in w'.calls ensures NextDelivered(w', w'.calls[j].pc) {
      if j in w.calls { assert NextDelivered(w, w.calls[j].pc); }
    }
  }

  lemma {:induction false} RunDelivers(w: World, steps: seq<Step>)
    requires Inv(w) && ReceiptsDelivered(w)
    ensures ReceiptsDelivered(Run(w, steps))
    decreases |steps|
  {
    if steps != [] {
      StepKeepsInvariant(w, steps[0]);
      StepDelivers(w, steps[0]);
      RunDelivers(Apply(w, steps[0]), steps[1..]);
    }
  }

  // Over every run a record on disk carries the number of its state, an effect digest
  // from its preparation on, a result with its digest once the effect is committed, and
  // a receipt once that is.
  lemma RecordsInFields(steps: seq<Step>, op: string)
    ensures var w := Run(EmptyWorld(), steps);
      op in w.disk.records ==>
        var r := w.disk.records[op];
        && r.operationId == op
        && (r.sequence == match r.state case Authorized => 1 case EffectPrepared => 2 case EffectCommitted => 3 case ReceiptCommitted => 4 case Responded => 5)
        && (r.effectDigest.Some? <==> r.state != Authorized)
        && (r.result.Some? <==> r.state in {EffectCommitted, ReceiptCommitted, Responded})
        && (r.resultDigest == if r.result.None? then None else Some(ResultDigest(r.result.value)))
        && (r.receipt.Some? <==> r.state in {ReceiptCommitted, Responded})
        && (r.receipt.Some? ==> var e := r.receipt.value;
             && e.operationId == op && e.command == r.command && e.intentHash == r.intentHash && e.confirmationId == r.confirmationId
             && Some(e.effectDigest) == r.effectDigest && Some(e.resultDigest) == r.resultDigest)
  {
    RunKeepsInvariant(EmptyWorld(), []);
    RunKeepsInvariant(EmptyWorld(), steps);
    var w := Run(EmptyWorld(), steps);
    if op in w.disk.records { assert RecordOk(w.disk, op, w.disk.records[op]); }
  }

  // A receipt is handed out for a committed effect exactly when the clock has not gone
  // back behind the intent, and names action, confirmation, key, effect, result and times.
  lemma ReceiptInFields(w: World, id: nat)
    requires id in w.calls && w.calls[id].pc.Holding? && w.calls[id].pc.record.state == EffectCommitted
    requires w.calls[id].pc.record.effectDigest.Some? && w.calls[id].pc.record.result.Some?
    ensures var c := w.calls[id]; var v := Apply(w, Act(id, RecordReceipt));
      if c.intent.issuedAt <= c.now then
        |v.receipts| == |w.receipts| + 1 && v.receipts[..|w.receipts|] == w.receipts
        && var e := v.receipts[|w.receipts|];
        && e.operationId == c.intent.operationId && e.command == c.intent.command && e.intentHash == IntentDigest(c.intent)
        && e.confirmationId == c.confirmation.id && e.keyId == c.confirmation.keyId && e.keyGeneration == c.confirmation.keyGeneration
        && e.effectDigest == c.pc.record.effectDigest.value && e.resultDigest == ResultDigest(c.pc.record.result.value)
        && e.createdAt == c.intent.issuedAt && e.completedAt == c.now
      else v.receipts == w.receipts && v.calls[id].pc == ReleasingOperation(Failed)
  {
  }

  // Over every run: whatever record on disk holds a receipt, that receipt was handed to
  // recordReceipt before; so an answered operation always has one that was recorded.
  lemma AnsweredOperationsHaveReceipts(steps: seq<Step>, op: string)
    ensures var w := Run(EmptyWorld(), steps);
      op in w.disk.records && w.disk.records[op].state in {ReceiptCommitted, Responded} ==>
        w.disk.records[op].receipt.Some? && w.disk.records[op].receipt.value in w.receipts
  {
    RunKeepsInvariant(EmptyWorld(), []);
    RunKeepsInvariant(EmptyWorld(), steps);
    RunDelivers(EmptyWorld(), steps);
    var w := Run(EmptyWorld(), steps);
    if op in w.disk.records { assert RecordOk(w.disk, op, w.disk.records[op]); }
  }
}
