// The confirmed-operator-action protocol as a state machine: every file
// operation of the write-ahead ledger, every call into the outside world, and a
// crash of a whole process are single steps that may interleave in any order.
module LedgerProtocol {

  datatype Option<+T> = None | Some(value: T)

  // ----- Values ---------------------------------------------------------------

  // Content identity. A digest is the value it was taken from, so two digests
  // are equal exactly when the values are.
  datatype Digest =
    | IntentDigest(intent: Intent)
    | ConfirmationDigest(confirmation: Confirmation)
    | ResultDigest(result: string)
    | EffectDigest(text: string)

  datatype Intent = Intent(
    operationId: string, command: string, issuedAt: int, expiresAt: int, details: string)

  datatype Confirmation = Confirmation(
    id: string, intentHash: Digest, command: string, details: string,
    keyId: string, keyGeneration: nat, issuedAt: int, expiresAt: int, signature: string)

  // `boundDetails` are the confirmation details (principal, nonce, algorithm and
  // purpose) that the trust anchor accepts for an intent; `signed` are the
  // confirmations whose signature verifies under the pinned key.
  datatype Trust = Trust(
    keyId: string, keyGeneration: nat, revoked: set<string>, maxTtl: int,
    boundDetails: set<(string, string)>, signed: set<Confirmation>)

  datatype ActionState =
    Authorized | EffectPrepared | EffectCommitted | ReceiptCommitted | Responded

  function Sequence(s: ActionState): nat {
    match s
    case Authorized => 1
    case EffectPrepared => 2
    case EffectCommitted => 3
    case ReceiptCommitted => 4
    case Responded => 5
  }

  datatype Receipt = Receipt(
    operationId: string, command: string, intentHash: Digest, confirmationId: string,
    keyId: string, keyGeneration: nat, effectDigest: Digest, resultDigest: Digest,
    createdAt: int, completedAt: int)

  datatype Record = Record(
    operationId: string, command: string, intentHash: Digest, confirmationId: string,
    state: ActionState, sequence: nat, effectDigest: Option<Digest>,
    result: Option<string>, resultDigest: Option<Digest>, receipt: Option<Receipt>,
    updatedAt: int)

  datatype Consumption = Consumption(
    confirmationId: string, operationId: string, intentHash: Digest,
    confirmationHash: Digest, authorizedAt: int)

  // A lock file is empty until its owner has written itself and the time into it.
  datatype Lock = Partial | Held(pid: nat, acquiredAt: int)

  // What is on disk. Everything here survives a crash.
  datatype Disk = Disk(
    consumptions: map<string, Consumption>,
    records: map<string, Record>,
    consumptionTemps: map<string, Consumption>,
    recordTemps: map<(string, nat), Record>,
    confirmationLocks: map<string, Lock>,
    operationLocks: map<string, Lock>)

  function IntentHash(i: Intent): Digest { IntentDigest(i) }

  // The ledger schema: the state, its sequence number and the payload agree.
  predicate Shaped(r: Record) {
    && r.sequence == Sequence(r.state)
    && r.effectDigest.Some? == (r.sequence >= 2)
    && r.result.Some? == (r.sequence >= 3)
    && r.resultDigest.Some? == (r.sequence >= 3)
    && r.receipt.Some? == (r.sequence >= 4)
  }

  // Everything verifyPinnedOperatorConfirmation checks.
  predicate Verified(i: Intent, c: Confirmation, t: Trust, now: int) {
    && c.intentHash == IntentHash(i)
    && c.command == i.command
    && (i.details, c.details) in t.boundDetails
    && c.keyId == t.keyId
    && c.keyGeneration == t.keyGeneration
    && c.keyId !in t.revoked
    && c.expiresAt - c.issuedAt <= t.maxTtl
    && now < i.expiresAt
    && now < c.expiresAt
    && c.issuedAt <= now
    && i.issuedAt <= c.issuedAt
    && c.expiresAt <= i.expiresAt
    && c in t.signed
  }

  function ConsumptionOf(i: Intent, c: Confirmation, now: int): Consumption {
    Consumption(c.id, i.operationId, IntentHash(i), ConfirmationDigest(c), now)
  }

  function FirstRecord(i: Intent, c: Confirmation, now: int): Record {
    Record(i.operationId, i.command, IntentHash(i), c.id, Authorized, 1, None, None, None, None, now)
  }

  // nextRecord, which refuses any state but the next one.
  function NextRecord(
    previous: Record, state: ActionState, now: int,
    effectDigest: Option<Digest>, result: Option<string>, receipt: Option<Receipt>): Option<Record>
  {
    if Sequence(state) != previous.sequence + 1 then None
    else
      var r := if result.Some? then result else previous.result;
      Some(previous.(
        state := state, sequence := Sequence(state),
        effectDigest := if effectDigest.Some? then effectDigest else previous.effectDigest,
        result := r,
        resultDigest := if r.None? then None else Some(ResultDigest(r.value)),
        receipt := if receipt.Some? then receipt else previous.receipt,
        updatedAt := now))
  }

  // None where the receipt schema or a missing field makes the source throw.
  function BuildReceipt(i: Intent, c: Confirmation, r: Record, now: int): Option<Receipt> {
    if r.effectDigest.None? || r.result.None? || now < i.issuedAt then None
    else Some(Receipt(
      i.operationId, i.command, IntentHash(i), c.id, c.keyId, c.keyGeneration,
      r.effectDigest.value, ResultDigest(r.result.value), i.issuedAt, now))
  }

  // ----- Calls ----------------------------------------------------------------

  datatype Outcome = Failed | Returned(result: string)

  // Where a call of executeConfirmedOperatorAction stands. `Opening` is about to
  // create the temporary file exclusively; `Renaming` has written it and is about
  // to rename it over the record.
  datatype Pc =
    | Idle
    | ConfirmationLockCreated | ConfirmationLockOwned | ConfirmationReady
    | OperationLockCreated | OperationLockOwned | OperationReady
    | Binding | BindingTemp
    | Holding(record: Record)
    | Opening(next: Record)
    | Renaming(next: Record)
    | Reconciled(record: Record)
    | EffectPending(record: Record)
    | EffectDone(record: Record, result: string)
    | ReleasingOperation(outcome: Outcome)
    | ReleasingConfirmation(outcome: Outcome)
    | Ended(outcome: Outcome)
    | Crashed

  datatype Call = Call(
    pid: nat, intent: Intent, confirmation: Confirmation, trust: Trust, now: int, pc: Pc)

  function Op(c: Call): string { c.intent.operationId }

  function Conf(c: Call): string { c.confirmation.id }

  predicate Active(pc: Pc) { !pc.Idle? && !pc.Ended? && !pc.Crashed? }

  predicate HoldsConfirmation(pc: Pc) { Active(pc) }

  predicate HoldsOperation(pc: Pc) {
    && Active(pc)
    && !pc.ConfirmationLockCreated? && !pc.ConfirmationLockOwned? && !pc.ConfirmationReady?
    && !pc.ReleasingConfirmation?
  }

  // Inside the callback of the operation lock: an exception there runs both
  // `finally` blocks.
  predicate InCallback(pc: Pc) {
    HoldsOperation(pc) && !pc.OperationLockCreated? && !pc.OperationLockOwned?
    && !pc.ReleasingOperation?
  }

  // ----- The world ------------------------------------------------------------

  datatype EffectEvent = EffectEvent(operationId: string, call: nat, digest: Option<Digest>)

  // `done` is what the effects have changed outside, which reconcileEffect
  // reports exactly; `effects` and `receipts` log what was executed and recorded.
  datatype World = World(
    disk: Disk, calls: map<nat, Call>, live: set<nat>,
    done: map<string, string>, effects: seq<EffectEvent>, receipts: seq<Receipt>)

  function EmptyWorld(): World {
    World(Disk(map[], map[], map[], map[], map[], map[]), map[], {}, map[], [], [])
  }

  datatype Step =
    | Spawn(pid: nat)
    | Crash(pid: nat)
    | RecoverOperationLock(operationId: string, pid: nat, now: int, minimumAge: int)
    | RecoverConfirmationLock(confirmationId: string, pid: nat, now: int, minimumAge: int)
    | Begin(call: nat, pid: nat, intent: Intent, confirmation: Confirmation, trust: Trust, now: int)
    | Act(call: nat, action: Action)

  // What one call does next. `unlinked` says whether a clean-up could unlink the
  // lock; `valid` whether validateCurrentState accepted.
  datatype Action =
    | CreateConfirmationLock
    | OwnConfirmationLock(acquiredAt: int)
    | ClearConfirmationTemp
    | FailConfirmationLock(unlinked: bool)
    | CreateOperationLock
    | OwnOperationLock(acquiredAt: int)
    | ClearOperationTemps
    | FailOperationLock(unlinked: bool)
    | Inspect
    | OpenConsumption
    | RenameConsumption
    | Prepare(valid: bool, digest: string)
    | OpenRecord
    | RenameRecord
    | Reconcile
    | StartEffect(valid: bool)
    | RunEffect(result: string)
    | CommitEffect
    | RecordReceipt
    | Respond
    | Finish
    | Fail
    | ReleaseOperationLock(unlinked: bool)
    | ReleaseConfirmationLock(unlinked: bool)

  function At(w: World, id: nat, pc: Pc): World
    requires id in w.calls
  {
    w.(calls := w.calls[id := w.calls[id].(pc := pc)])
  }

  function Throw(w: World, id: nat): World
    requires id in w.calls
  {
    At(w, id, ReleasingOperation(Failed))
  }

  function WithoutTemps(temps: map<(string, nat), Record>, operationId: string): map<(string, nat), Record> {
    map k | k in temps && !(k.0 == operationId && 1 <= k.1 <= 5) :: temps[k]
  }

  function Crashing(calls: map<nat, Call>, pid: nat): map<nat, Call> {
    map id | id in calls ::
      if calls[id].pid == pid && !calls[id].pc.Ended? then calls[id].(pc := Crashed) else calls[id]
  }

  // The reads and checks at the start of the callback, lines 608-656.
  function InspectPc(d: Disk, c: Call): Pc {
    var consumed := if Conf(c) in d.consumptions then Some(d.consumptions[Conf(c)]) else None;
    var existing := if Op(c) in d.records then Some(d.records[Op(c)]) else None;
    if existing.Some? && (existing.value.intentHash != IntentHash(c.intent) || existing.value.confirmationId != Conf(c)) then
      ReleasingOperation(Failed)
    else if consumed.Some? && (consumed.value.operationId != Op(c) || consumed.value.intentHash != IntentHash(c.intent) || consumed.value.confirmationHash != ConfirmationDigest(c.confirmation)) then
      ReleasingOperation(Failed)
    else if consumed.None? && existing.Some? then
      ReleasingOperation(Failed)
    else if !Verified(c.intent, c.confirmation, c.trust, if consumed.None? then c.now else c.confirmation.issuedAt) then
      ReleasingOperation(Failed)
    else if consumed.Some? && existing.None? && !Verified(c.intent, c.confirmation, c.trust, c.now) then
      ReleasingOperation(Failed)
    else if consumed.None? then Binding
    else if existing.None? then Opening(FirstRecord(c.intent, c.confirmation, c.now))
    else Holding(existing.value)
  }

  function OpenNext(w: World, id: nat, next: Option<Record>): World
    requires id in w.calls
  {
    if next.None? then Throw(w, id) else At(w, id, Opening(next.value))
  }

  // ----- One action of one call -----------------------------------------------
  // An action that does not fit the call's position changes nothing.

  function TakeConfirmationLock(w: World, id: nat): World
    requires id in w.calls
  {
    var c, d := w.calls[id], w.disk;
    if !c.pc.Idle? then w
    else if Conf(c) in d.confirmationLocks then At(w, id, Ended(Failed))
    else At(w.(disk := d.(confirmationLocks := d.confirmationLocks[Conf(c) := Partial])), id, ConfirmationLockCreated)
  }

  function SignConfirmationLock(w: World, id: nat, acquiredAt: int): World
    requires id in w.calls
  {
    var c, d := w.calls[id], w.disk;
    if !c.pc.ConfirmationLockCreated? then w
    else At(w.(disk := d.(confirmationLocks := d.confirmationLocks[Conf(c) := Held(c.pid, acquiredAt)])), id, ConfirmationLockOwned)
  }

  function SweepConfirmationTemp(w: World, id: nat): World
    requires id in w.calls
  {
    var c, d := w.calls[id], w.disk;
    if !c.pc.ConfirmationLockOwned? then w
    else At(w.(disk := d.(consumptionTemps := d.consumptionTemps - {Conf(c)})), id, ConfirmationReady)
  }

  function AbandonConfirmationLock(w: World, id: nat, unlinked: bool): World
    requires id in w.calls
  {
    var c, d := w.calls[id], w.disk;
    if !c.pc.ConfirmationLockCreated? && !c.pc.ConfirmationLockOwned? then w
    else if unlinked then
      At(w.(disk := d.(confirmationLocks := d.confirmationLocks - {Conf(c)})), id, Ended(Failed))
    else At(w, id, Ended(Failed))
  }

  // A refused operation lock throws before the `finally` of the confirmation
  // lock is attached, so the confirmation lock stays on disk.
  function TakeOperationLock(w: World, id: nat): World
    requires id in w.calls
  {
    var c, d := w.calls[id], w.disk;
    if !c.pc.ConfirmationReady? then w
    else if Op(c) in d.operationLocks then At(w, id, Ended(Failed))
    else At(w.(disk := d.(operationLocks := d.operationLocks[Op(c) := Partial])), id, OperationLockCreated)
  }

  function SignOperationLock(w: World, id: nat, acquiredAt: int): World
    requires id in w.calls
  {
    var c, d := w.calls[id], w.disk;
    if !c.pc.OperationLockCreated? then w
    else At(w.(disk := d.(operationLocks := d.operationLocks[Op(c) := Held(c.pid, acquiredAt)])), id, OperationLockOwned)
  }

  function SweepOperationTemps(w: World, id: nat): World
    requires id in w.calls
  {
    var c, d := w.calls[id], w.disk;
    if !c.pc.OperationLockOwned? then w
    else At(w.(disk := d.(recordTemps := WithoutTemps(d.recordTemps, Op(c)))), id, OperationReady)
  }

  function AbandonOperationLock(w: World, id: nat, unlinked: bool): World
    requires id in w.calls
  {
    var c, d := w.calls[id], w.disk;
    if !c.pc.OperationLockCreated? && !c.pc.OperationLockOwned? then w
    else if unlinked then
      At(w.(disk := d.(operationLocks := d.operationLocks - {Op(c)})), id, Ended(Failed))
    else At(w, id, Ended(Failed))
  }

  function InspectLedger(w: World, id: nat): World
    requires id in w.calls
  {
    if !w.calls[id].pc.OperationReady? then w
    else At(w, id, InspectPc(w.disk, w.calls[id]))
  }

  function WriteConsumptionTemp(w: World, id: nat): World
    requires id in w.calls
  {
    var c, d := w.calls[id], w.disk;
    if !c.pc.Binding? then w
    else if Conf(c) in d.consumptionTemps then Throw(w, id)
    else At(w.(disk := d.(consumptionTemps := d.consumptionTemps[Conf(c) := ConsumptionOf(c.intent, c.confirmation, c.now)])), id, BindingTemp)
  }

  function PublishConsumption(w: World, id: nat): World
    requires id in w.calls
  {
    var c, d := w.calls[id], w.disk;
    if !c.pc.BindingTemp? then w
    else if Conf(c) !in d.consumptionTemps then Throw(w, id)
    else At(w.(disk := d.(
      consumptions := d.consumptions[Conf(c) := d.consumptionTemps[Conf(c)]],
      consumptionTemps := d.consumptionTemps - {Conf(c)})),
      id, Opening(FirstRecord(c.intent, c.confirmation, c.now)))
  }

  function WriteRecordTemp(w: World, id: nat): World
    requires id in w.calls
  {
    var c, d := w.calls[id], w.disk;
    if !c.pc.Opening? then w
    else if !Shaped(c.pc.next) || (Op(c), c.pc.next.sequence) in d.recordTemps then Throw(w, id)
    else At(w.(disk := d.(recordTemps := d.recordTemps[(Op(c), c.pc.next.sequence) := c.pc.next])), id, Renaming(c.pc.next))
  }

  function PublishRecord(w: World, id: nat): World
    requires id in w.calls
  {
    var c, d := w.calls[id], w.disk;
    if !c.pc.Renaming? then w
    else
      var k := (Op(c), c.pc.next.sequence);
      if k !in d.recordTemps then Throw(w, id)
      else At(w.(disk := d.(records := d.records[Op(c) := d.recordTemps[k]], recordTemps := d.recordTemps - {k})),
              id, Holding(c.pc.next))
  }

  function PrepareEffect(w: World, id: nat, valid: bool, digest: string): World
    requires id in w.calls
  {
    var c := w.calls[id];
    if !c.pc.Holding? || c.pc.record.state != Authorized then w
    else if !Verified(c.intent, c.confirmation, c.trust, c.now) || !valid then Throw(w, id)
    else OpenNext(w, id, NextRecord(c.pc.record, EffectPrepared, c.now, Some(EffectDigest(digest)), None, None))
  }

  function ReconcileEffect(w: World, id: nat): World
    requires id in w.calls
  {
    var c := w.calls[id];
    if !c.pc.Holding? || c.pc.record.state != EffectPrepared then w
    else if Op(c) in w.done then
      OpenNext(w, id, NextRecord(c.pc.record, EffectCommitted, c.now, None, Some(w.done[Op(c)]), None))
    else At(w, id, Reconciled(c.pc.record))
  }

  function AdmitEffect(w: World, id: nat, valid: bool): World
    requires id in w.calls
  {
    var c := w.calls[id];
    if !c.pc.Reconciled? then w
    else if !Verified(c.intent, c.confirmation, c.trust, c.now) || !valid then Throw(w, id)
    else At(w, id, EffectPending(c.pc.record))
  }

  function ExecuteEffect(w: World, id: nat, result: string): World
    requires id in w.calls
  {
    var c := w.calls[id];
    if !c.pc.EffectPending? then w
    else At(w.(done := w.done[Op(c) := result],
               effects := w.effects + [EffectEvent(Op(c), id, c.pc.record.effectDigest)]),
            id, EffectDone(c.pc.record, result))
  }

  function KeepEffect(w: World, id: nat): World
    requires id in w.calls
  {
    var c := w.calls[id];
    if !c.pc.EffectDone? then w
    else OpenNext(w, id, NextRecord(c.pc.record, EffectCommitted, c.now, None, Some(c.pc.result), None))
  }

  function DeliverReceipt(w: World, id: nat): World
    requires id in w.calls
  {
    var c := w.calls[id];
    if !c.pc.Holding? || c.pc.record.state != EffectCommitted then w
    else
      var receipt := BuildReceipt(c.intent, c.confirmation, c.pc.record, c.now);
      if receipt.None? then Throw(w, id)
      else OpenNext(w.(receipts := w.receipts + [receipt.value]), id,
                    NextRecord(c.pc.record, ReceiptCommitted, c.now, None, None, receipt))
  }

  function MarkResponded(w: World, id: nat): World
    requires id in w.calls
  {
    var c := w.calls[id];
    if !c.pc.Holding? || c.pc.record.state != ReceiptCommitted then w
    else OpenNext(w, id, NextRecord(c.pc.record, Responded, c.now, None, None, None))
  }

  function Answer(w: World, id: nat): World
    requires id in w.calls
  {
    var c := w.calls[id];
    if !c.pc.Holding? || c.pc.record.state != Responded then w
    else At(w, id, ReleasingOperation(if c.pc.record.result.None? then Failed else Returned(c.pc.record.result.value)))
  }

  function FailInside(w: World, id: nat): World
    requires id in w.calls
  {
    if InCallback(w.calls[id].pc) then Throw(w, id) else w
  }

  function DropOperationLock(w: World, id: nat, unlinked: bool): World
    requires id in w.calls
  {
    var c, d := w.calls[id], w.disk;
    if !c.pc.ReleasingOperation? then w
    else if unlinked then
      At(w.(disk := d.(operationLocks := d.operationLocks - {Op(c)})), id, ReleasingConfirmation(c.pc.outcome))
    else At(w, id, ReleasingConfirmation(Failed))
  }

  function DropConfirmationLock(w: World, id: nat, unlinked: bool): World
    requires id in w.calls
  {
    var c, d := w.calls[id], w.disk;
    if !c.pc.ReleasingConfirmation? then w
    else if unlinked then
      At(w.(disk := d.(confirmationLocks := d.confirmationLocks - {Conf(c)})), id, Ended(c.pc.outcome))
    else At(w, id, Ended(Failed))
  }

  function Do(w: World, id: nat, a: Action): World
    requires id in w.calls
  {
    match a
    case CreateConfirmationLock => TakeConfirmationLock(w, id)
    case OwnConfirmationLock(acquiredAt) => SignConfirmationLock(w, id, acquiredAt)
    case ClearConfirmationTemp => SweepConfirmationTemp(w, id)
    case FailConfirmationLock(unlinked) => AbandonConfirmationLock(w, id, unlinked)
    case CreateOperationLock => TakeOperationLock(w, id)
    case OwnOperationLock(acquiredAt) => SignOperationLock(w, id, acquiredAt)
    case ClearOperationTemps => SweepOperationTemps(w, id)
    case FailOperationLock(unlinked) => AbandonOperationLock(w, id, unlinked)
    case Inspect => InspectLedger(w, id)
    case OpenConsumption => WriteConsumptionTemp(w, id)
    case RenameConsumption => PublishConsumption(w, id)
    case Prepare(valid, digest) => PrepareEffect(w, id, valid, digest)
    case OpenRecord => WriteRecordTemp(w, id)
    case RenameRecord => PublishRecord(w, id)
    case Reconcile => ReconcileEffect(w, id)
    case StartEffect(valid) => AdmitEffect(w, id, valid)
    case RunEffect(result) => ExecuteEffect(w, id, result)
    case CommitEffect => KeepEffect(w, id)
    case RecordReceipt => DeliverReceipt(w, id)
    case Respond => MarkResponded(w, id)
    case Finish => Answer(w, id)
    case Fail => FailInside(w, id)
    case ReleaseOperationLock(unlinked) => DropOperationLock(w, id, unlinked)
    case ReleaseConfirmationLock(unlinked) => DropConfirmationLock(w, id, unlinked)
  }

  // A lock that is old enough and names the expected owner. Recovery touches it only
  // when that owner is not live.
  predicate Stale(lock: Lock, pid: nat, now: int, minimumAge: int) {
    lock.Held? && lock.pid == pid && minimumAge > 0 && now - lock.acquiredAt >= minimumAge
  }

  function Apply(w: World, s: Step): World {
    match s
    case Spawn(pid) => w.(live := w.live + {pid})
    case Crash(pid) =>
      if pid !in w.live then w else w.(live := w.live - {pid}, calls := Crashing(w.calls, pid))
    case RecoverOperationLock(op, pid, now, minimumAge) =>
      if op in w.disk.operationLocks && Stale(w.disk.operationLocks[op], pid, now, minimumAge) && pid !in w.live then
        w.(disk := w.disk.(
          recordTemps := WithoutTemps(w.disk.recordTemps, op),
          operationLocks := w.disk.operationLocks - {op}))
      else w
    case RecoverConfirmationLock(k, pid, now, minimumAge) =>
      if k in w.disk.confirmationLocks && Stale(w.disk.confirmationLocks[k], pid, now, minimumAge) && pid !in w.live then
        w.(disk := w.disk.(
          consumptionTemps := w.disk.consumptionTemps - {k},
          confirmationLocks := w.disk.confirmationLocks - {k}))
      else w
    case Begin(id, pid, intent, confirmation, trust, now) =>
      if id in w.calls || pid !in w.live then w
      else w.(calls := w.calls[id := Call(pid, intent, confirmation, trust, now, Idle)])
    case Act(id, a) => if id in w.calls then Do(w, id, a) else w
  }

  function Run(w: World, steps: seq<Step>): World
    decreases |steps|
  {
    if steps == [] then w else Run(Apply(w, steps[0]), steps[1..])
  }
}
