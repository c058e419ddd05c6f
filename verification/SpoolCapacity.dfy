// Many processes enqueue into one spool directory while others flush it. Every
// system call is one step, and steps of different processes interleave freely.
module SpoolCapacity {

  datatype Option<+T> = None | Some(value: T)

  // A spool file. `rank` orders the files by the moment their content was complete;
  // a file that is still being written has none.
  datatype File = File(size: nat, rank: Option<nat>)

  type Files = map<nat, File>

  datatype Limits = Limits(maxEntries: nat, maxBytes: nat, maxEntryBytes: nat)

  // One pass of `#entries` and the size summation: the names the directory listing
  // gave, those still to be looked at, and the bytes so far.
  datatype Scan = Scan(names: set<nat>, todo: set<nat>, bytes: nat)

  // `Abandoned` is the end of a process that died between creating its file and its
  // recheck, with the rank of the file if that was complete.
  datatype Outcome = Stored | Same | Conflict | TooLarge | Full | Failed | Crashed | Abandoned(written: Option<nat>)

  datatype Phase =
    | Checking
    | ListingBefore
    | Before(scan: Scan)
    | Creating
    | Writing
    | ListingAfter(rank: nat)
    | After(rank: nat, scan: Scan)
    | Undoing(why: Outcome, written: Option<nat>)
    | Finished(outcome: Outcome)

  // An enqueue call: its file name, the bytes it stores, and how far it has come.
  datatype Call = Call(key: nat, size: nat, phase: Phase)

  datatype Spool = Spool(files: Files, writes: nat, calls: map<nat, Call>)

  datatype Step =
    | Begin(call: nat, key: nat, size: nat)
    | CheckExists(call: nat, identical: bool)
    | ReadDirectory(call: nat)
    | Stat(call: nat, name: nat)
    | Decide(call: nat)
    | Create(call: nat)
    | WritePart(call: nat, size: nat)
    | WriteAll(call: nat)
    | WriteFails(call: nat)
    | Unlink(call: nat)
    | Remove(name: nat)
    | Crash(call: nat)

  predicate Active(p: Spool, id: nat) {
    id in p.calls && !p.calls[id].phase.Finished?
  }

  predicate KeyBusy(p: Spool, key: nat) {
    exists id :: id in p.calls && Active(p, id) && p.calls[id].key == key
  }

  function To(p: Spool, id: nat, phase: Phase): Spool
    requires id in p.calls
  {
    p.(calls := p.calls[id := p.calls[id].(phase := phase)])
  }

  // The callers use distinct idempotency keys while they are at work.
  function DoBegin(limits: Limits, p: Spool, id: nat, key: nat, size: nat): Spool {
    if id in p.calls || KeyBusy(p, key) then p
    else p.(calls := p.calls[id := Call(key, size, if size > limits.maxEntryBytes then Finished(TooLarge) else Checking)])
  }

  function DoCheckExists(p: Spool, id: nat, identical: bool): Spool
    requires id in p.calls
  {
    if !p.calls[id].phase.Checking? then p
    else if p.calls[id].key in p.files then To(p, id, Finished(if identical then Same else Conflict))
    else To(p, id, ListingBefore)
  }

  function DoReadDirectory(p: Spool, id: nat): Spool
    requires id in p.calls
  {
    var scan := Scan(p.files.Keys, p.files.Keys, 0);
    match p.calls[id].phase
    case ListingBefore => To(p, id, Before(scan))
    case ListingAfter(rank) => To(p, id, After(rank, scan))
    case _ => p
  }

  function Look(s: Scan, name: nat, size: nat): Scan {
    Scan(s.names, s.todo - {name}, s.bytes + size)
  }

  // lstat of a name that has gone throws.
  function DoStat(p: Spool, id: nat, name: nat): Spool
    requires id in p.calls
  {
    match p.calls[id].phase
    case Before(scan) =>
      if name !in scan.todo then p
      else if name !in p.files then To(p, id, Finished(Failed))
      else To(p, id, Before(Look(scan, name, p.files[name].size)))
    case After(rank, scan) =>
      if name !in scan.todo then p
      else if name !in p.files then To(p, id, Undoing(Failed, Some(rank)))
      else To(p, id, After(rank, Look(scan, name, p.files[name].size)))
    case _ => p
  }

  function DoDecide(limits: Limits, p: Spool, id: nat): Spool
    requires id in p.calls
  {
    match p.calls[id].phase
    case Before(scan) =>
      if scan.todo != {} then p
      else if |scan.names| >= limits.maxEntries || scan.bytes + p.calls[id].size > limits.maxBytes
      then To(p, id, Finished(Full))
      else To(p, id, Creating)
    case After(rank, scan) =>
      if scan.todo != {} then p
      else if |scan.names| > limits.maxEntries || scan.bytes > limits.maxBytes
      then To(p, id, Undoing(Full, Some(rank)))
      else To(p, id, Finished(Stored))
    case _ => p
  }

  // Exclusive create; when it fails the catch block unlinks what is there.
  function DoCreate(p: Spool, id: nat): Spool
    requires id in p.calls
  {
    if !p.calls[id].phase.Creating? then p
    else if p.calls[id].key in p.files then To(p, id, Undoing(Failed, None))
    else To(p.(files := p.files[p.calls[id].key := File(0, None)]), id, Writing)
  }

  // A flush may have taken the file away; what is written then goes nowhere.
  function Resize(files: Files, key: nat, file: File): Files {
    if key in files then files[key := file] else files
  }

  function DoWritePart(p: Spool, id: nat, size: nat): Spool
    requires id in p.calls
  {
    if !p.calls[id].phase.Writing? || size > p.calls[id].size then p
    else p.(files := Resize(p.files, p.calls[id].key, File(size, None)))
  }

  function DoWriteAll(p: Spool, id: nat): Spool
    requires id in p.calls
  {
    if !p.calls[id].phase.Writing? then p
    else To(p.(files := Resize(p.files, p.calls[id].key, File(p.calls[id].size, Some(p.writes))), writes := p.writes + 1),
            id, ListingAfter(p.writes))
  }

  function DoUnlink(p: Spool, id: nat): Spool
    requires id in p.calls
  {
    if !p.calls[id].phase.Undoing? then p
    else To(p.(files := p.files - {p.calls[id].key}), id, Finished(p.calls[id].phase.why))
  }

  function OutcomeOfCrash(phase: Phase): Outcome {
    match phase
    case Writing => Abandoned(None)
    case ListingAfter(rank) => Abandoned(Some(rank))
    case After(rank, _) => Abandoned(Some(rank))
    case Undoing(_, written) => Abandoned(written)
    case _ => Crashed
  }

  function Apply(limits: Limits, p: Spool, s: Step): Spool {
    match s
    case Begin(id, key, size) => DoBegin(limits, p, id, key, size)
    case CheckExists(id, identical) => if id in p.calls then DoCheckExists(p, id, identical) else p
    case ReadDirectory(id) => if id in p.calls then DoReadDirectory(p, id) else p
    case Stat(id, name) => if id in p.calls then DoStat(p, id, name) else p
    case Decide(id) => if id in p.calls then DoDecide(limits, p, id) else p
    case Create(id) => if id in p.calls then DoCreate(p, id) else p
    case WritePart(id, size) => if id in p.calls then DoWritePart(p, id, size) else p
    case WriteAll(id) => if id in p.calls then DoWriteAll(p, id) else p
    case WriteFails(id) => if id in p.calls && p.calls[id].phase.Writing? then To(p, id, Undoing(Failed, None)) else p
    case Unlink(id) => if id in p.calls then DoUnlink(p, id) else p
    case Remove(name) => p.(files := p.files - {name})
    case Crash(id) => if Active(p, id) then To(p, id, Finished(OutcomeOfCrash(p.calls[id].phase))) else p
  }

  function Run(limits: Limits, p: Spool, steps: seq<Step>): Spool
    decreases |steps|
  {
    if steps == [] then p else Run(limits, Apply(limits, p, steps[0]), steps[1..])
  }

  // ----- Sizes ----------------------------------------------------------------

  ghost function Bytes(files: Files, s: set<nat>): nat
    requires s <= files.Keys
    decreases |s|
  {
    if s == {} then 0 else var x :| x in s; files[x].size + Bytes(files, s - {x})
  }

  lemma {:induction false} BytesWithout(files: Files, s: set<nat>, x: nat)
    requires s <= files.Keys && x in s
    ensures Bytes(files, s) == files[x].size + Bytes(files, s - {x})
    decreases |s|
  {
    var y :| y in s && Bytes(files, s) == files[y].size + Bytes(files, s - {y});
    if x != y {
      BytesWithout(files, s - {y}, x);
      BytesWithout(files, s - {x}, y);
      assert s - {y} - {x} == s - {x} - {y};
    }
  }

  // Fewer files of the same sizes never take more bytes.
  lemma {:induction false} BytesOfSubset(a: Files, s: set<nat>, b: Files, t: set<nat>)
    requires t <= s <= a.Keys && t <= b.Keys
    requires forall x :: x in t ==> b[x].size == a[x].size
    ensures Bytes(b, t) <= Bytes(a, s)
    decreases |s|
  {
    if s != {} {
      var x :| x in s;
      BytesWithout(a, s, x);
      if x in t { BytesWithout(b, t, x); }
      BytesOfSubset(a, s - {x}, b, t - {x});
      if x !in t { assert t - {x} == t; }
    }
  }

  lemma {:induction false} FewerNames(s: set<nat>, t: set<nat>)
    requires s <= t
    ensures |s| <= |t|
    decreases |t|
  {
    if s != {} {
      var x :| x in s;
      FewerNames(s - {x}, t - {x});
    }
  }

  // ----- The invariant --------------------------------------------------------

  // The files whose content was complete no later than the write of this rank.
  ghost function Low(files: Files, rank: nat): set<nat> {
    set k | k in files && files[k].rank.Some? && files[k].rank.value <= rank
  }

  ghost predicate Within(limits: Limits, files: Files, s: set<nat>)
    requires s <= files.Keys
  {
    |s| <= limits.maxEntries && Bytes(files, s) <= limits.maxBytes
  }

  // What a recheck has seen so far covers every file that was complete before its own.
  ghost predicate ScanCovers(files: Files, rank: nat, scan: Scan) {
    && scan.todo <= scan.names
    && Low(files, rank) <= scan.names
    && scan.bytes >= Bytes(files, Low(files, rank) - scan.todo)
  }

  // A call that died and left this file.
  predicate Left(c: Call, key: nat, f: File) {
    c.key == key && c.phase == Finished(Abandoned(f.rank))
  }

  // A call that still answers for a file: it is writing it, or rechecking it, or
  // about to unlink it, or has died and left it.
  predicate Answers(c: Call, key: nat, f: File) {
    || Left(c, key, f)
    || (c.key == key
        && match f.rank
           case None => c.phase.Writing? || (c.phase.Undoing? && c.phase.written.None?)
           case Some(rank) =>
             c.phase == ListingAfter(rank) || (c.phase.After? && c.phase.rank == rank) || (c.phase.Undoing? && c.phase.written == Some(rank)))
  }

  ghost predicate FileOk(limits: Limits, p: Spool, key: nat)
    requires key in p.files
  {
    || (p.files[key].rank.Some? && Within(limits, p.files, Low(p.files, p.files[key].rank.value)))
    || (exists id :: id in p.calls && Answers(p.calls[id], key, p.files[key]))
  }

  ghost predicate CallOk(p: Spool, c: Call) {
    match c.phase
    case ListingAfter(rank) => rank < p.writes
    case After(rank, scan) => rank < p.writes && ScanCovers(p.files, rank, scan)
    case _ => true
  }

  ghost predicate DistinctKeys(p: Spool) {
    forall i, j :: Active(p, i) && Active(p, j) && p.calls[i].key == p.calls[j].key ==> i == j
  }

  ghost predicate Inv(limits: Limits, p: Spool) {
    && DistinctKeys(p)
    && (forall key :: key in p.files ==> FileOk(limits, p, key))
    && (forall key :: key in p.files && p.files[key].rank.Some? ==> p.files[key].rank.value < p.writes)
    && (forall id :: id in p.calls ==> CallOk(p, p.calls[id]))
  }

  // Nothing that was complete before write number `writes` is added or changed.
  ghost predicate OnlyLoses(a: Files, b: Files, writes: nat) {
    forall k :: k in b && b[k].rank.Some? && b[k].rank.value < writes ==> k in a && a[k] == b[k]
  }

  lemma LowShrinks(a: Files, b: Files, writes: nat, rank: nat)
    requires OnlyLoses(a, b, writes) && rank < writes
    ensures Low(b, rank) <= Low(a, rank)
    ensures forall k :: k in Low(b, rank) ==> k in a && a[k].size == b[k].size
  {
  }

  lemma WithinStays(limits: Limits, a: Files, b: Files, writes: nat, rank: nat)
    requires OnlyLoses(a, b, writes) && rank < writes
    requires Within(limits, a, Low(a, rank))
    ensures Within(limits, b, Low(b, rank))
  {
    LowShrinks(a, b, writes, rank);
    BytesOfSubset(a, Low(a, rank), b, Low(b, rank));
    FewerNames(Low(b, rank), Low(a, rank));
  }

  lemma ScanStays(a: Files, b: Files, writes: nat, rank: nat, scan: Scan)
    requires OnlyLoses(a, b, writes) && rank < writes
    requires ScanCovers(a, rank, scan)
    ensures ScanCovers(b, rank, scan)
  {
    LowShrinks(a, b, writes, rank);
    BytesOfSubset(a, Low(a, rank) - scan.todo, b, Low(b, rank) - scan.todo);
  }

  // A file keeps its standing when the call that moved did not answer for it, or
  // still does.
  lemma FileStays(limits: Limits, p: Spool, q: Spool, id: nat, key: nat)
    requires OnlyLoses(p.files, q.files, p.writes)
    requires key in p.files && key in q.files && q.files[key] == p.files[key] && FileOk(limits, p, key)
    requires p.files[key].rank.Some? ==> p.files[key].rank.value < p.writes
    requires forall x :: x in p.calls && x != id ==> x in q.calls && q.calls[x] == p.calls[x]
    requires id in p.calls && Answers(p.calls[id], key, p.files[key]) ==>
      id in q.calls && Answers(q.calls[id], key, q.files[key])
    ensures FileOk(limits, q, key)
  {
    if p.files[key].rank.Some? && Within(limits, p.files, Low(p.files, p.files[key].rank.value)) {
      WithinStays(limits, p.files, q.files, p.writes, p.files[key].rank.value);
    } else {
      var w :| w in p.calls && Answers(p.calls[w], key, p.files[key]);
      assert w in q.calls && Answers(q.calls[w], key, q.files[key]);
    }
  }

  lemma CallStays(p: Spool, q: Spool, c: Call)
    requires OnlyLoses(p.files, q.files, p.writes) && p.writes <= q.writes && CallOk(p, c)
    ensures CallOk(q, c)
  {
    if c.phase.After? { ScanStays(p.files, q.files, p.writes, c.phase.rank, c.phase.scan); }
  }

  // A step of one call: the others stay as they are, its own file is checked apart.
  lemma CallStep(limits: Limits, p: Spool, q: Spool, id: nat)
    requires Inv(limits, p)
    requires OnlyLoses(p.files, q.files, p.writes) && p.writes <= q.writes
    requires q.calls.Keys == p.calls.Keys && id in p.calls && q.calls[id].key == p.calls[id].key
    requires forall x :: x in p.calls && x != id ==> q.calls[x] == p.calls[x]
    requires q.calls[id].phase.Finished? || !p.calls[id].phase.Finished?
    requires CallOk(q, q.calls[id])
    requires forall k :: k in q.files && k != p.calls[id].key ==> k in p.files && q.files[k] == p.files[k]
    requires p.calls[id].key in q.files ==> FileOk(limits, q, p.calls[id].key)
    requires forall k :: k in q.files && q.files[k].rank.Some? ==> q.files[k].rank.value < q.writes
    ensures Inv(limits, q)
  {
    forall k | k in q.files ensures FileOk(limits, q, k) {
      if k != p.calls[id].key { FileStays(limits, p, q, id, k); }
    }
    forall x | x in q.calls ensures CallOk(q, q.calls[x]) {
      if x != id { CallStays(p, q, p.calls[x]); }
    }
  }

  // A call that only moves on: its own file stands if it still answers for it.
  lemma PhaseStep(limits: Limits, p: Spool, id: nat, phase: Phase)
    requires Inv(limits, p) && Active(p, id)
    requires CallOk(p, p.calls[id].(phase := phase))
    requires p.calls[id].key in p.files && Answers(p.calls[id], p.calls[id].key, p.files[p.calls[id].key])
      ==> Answers(p.calls[id].(phase := phase), p.calls[id].key, p.files[p.calls[id].key])
    ensures Inv(limits, To(p, id, phase))
  {
    var q := To(p, id, phase);
    if p.calls[id].key in p.files { FileStays(limits, p, q, id, p.calls[id].key); }
    assert CallOk(q, q.calls[id]);
    CallStep(limits, p, q, id);
  }

  lemma BeginKeeps(limits: Limits, p: Spool, id: nat, key: nat, size: nat)
    requires Inv(limits, p)
    ensures Inv(limits, DoBegin(limits, p, id, key, size))
  {
    var q := DoBegin(limits, p, id, key, size);
    if id !in p.calls && !KeyBusy(p, key) {
      forall k | k in q.files ensures FileOk(limits, q, k) { FileStays(limits, p, q, id, k); }
      forall x | x in q.calls ensures CallOk(q, q.calls[x]) {
        if x != id { CallStays(p, q, p.calls[x]); }
      }
    }
  }

  lemma CheckKeeps(limits: Limits, p: Spool, id: nat, identical: bool)
    requires Inv(limits, p) && id in p.calls
    ensures Inv(limits, DoCheckExists(p, id, identical))
  {
    if p.calls[id].phase.Checking? {
      PhaseStep(limits, p, id, Finished(if identical then Same else Conflict));
      PhaseStep(limits, p, id, ListingBefore);
    }
  }

  lemma ReadKeeps(limits: Limits, p: Spool, id: nat)
    requires Inv(limits, p) && id in p.calls
    ensures Inv(limits, DoReadDirectory(p, id))
  {
    var scan := Scan(p.files.Keys, p.files.Keys, 0);
    match p.calls[id].phase
    case ListingBefore => PhaseStep(limits, p, id, Before(scan));
    case ListingAfter(rank) =>
      assert CallOk(p, p.calls[id]);
      assert Low(p.files, rank) - scan.todo == {};
      PhaseStep(limits, p, id, After(rank, scan));
    case _ =>
  }

  lemma LookCovers(files: Files, rank: nat, scan: Scan, name: nat)
    requires ScanCovers(files, rank, scan) && name in scan.todo && name in files
    ensures ScanCovers(files, rank, Look(scan, name, files[name].size))
  {
    var seen, next := Low(files, rank) - scan.todo, Low(files, rank) - (scan.todo - {name});
    if name in Low(files, rank) {
      BytesWithout(files, next, name);
      assert next - {name} == seen;
    } else {
      assert next == seen;
    }
  }

  lemma StatKeeps(limits: Limits, p: Spool, id: nat, name: nat)
    requires Inv(limits, p) && id in p.calls
    ensures Inv(limits, DoStat(p, id, name))
  {
    match p.calls[id].phase
    case Before(scan) =>
      PhaseStep(limits, p, id, Finished(Failed));
      if name in p.files { PhaseStep(limits, p, id, Before(Look(scan, name, p.files[name].size))); }
    case After(rank, scan) =>
      assert CallOk(p, p.calls[id]);
      if name in scan.todo {
        if name in p.files {
          LookCovers(p.files, rank, scan, name);
          PhaseStep(limits, p, id, After(rank, Look(scan, name, p.files[name].size)));
        } else {
          PhaseStep(limits, p, id, Undoing(Failed, Some(rank)));
        }
      }
    case _ =>
  }

  // The recheck passes: everything complete up to its own write is within limits.
  lemma RecheckPasses(limits: Limits, files: Files, rank: nat, scan: Scan)
    requires ScanCovers(files, rank, scan) && scan.todo == {}
    requires |scan.names| <= limits.maxEntries && scan.bytes <= limits.maxBytes
    ensures Within(limits, files, Low(files, rank))
  {
    assert Low(files, rank) - scan.todo == Low(files, rank);
    FewerNames(Low(files, rank), scan.names);
  }

  lemma StoredKeeps(limits: Limits, p: Spool, id: nat)
    requires Inv(limits, p) && Active(p, id) && p.calls[id].phase.After?
    requires Within(limits, p.files, Low(p.files, p.calls[id].phase.rank))
    ensures Inv(limits, To(p, id, Finished(Stored)))
  {
    var q, key := To(p, id, Finished(Stored)), p.calls[id].key;
    if key in p.files {
      if Answers(p.calls[id], key, p.files[key]) {
        assert FileOk(limits, q, key);
      } else {
        FileStays(limits, p, q, id, key);
      }
    }
    CallStep(limits, p, q, id);
  }

  lemma DecideKeeps(limits: Limits, p: Spool, id: nat)
    requires Inv(limits, p) && id in p.calls
    ensures Inv(limits, DoDecide(limits, p, id))
  {
    match p.calls[id].phase
    case Before(scan) =>
      PhaseStep(limits, p, id, Finished(Full));
      PhaseStep(limits, p, id, Creating);
    case After(rank, scan) =>
      assert CallOk(p, p.calls[id]);
      if scan.todo == {} {
        if |scan.names| > limits.maxEntries || scan.bytes > limits.maxBytes {
          PhaseStep(limits, p, id, Undoing(Full, Some(rank)));
        } else {
          RecheckPasses(limits, p.files, rank, scan);
          StoredKeeps(limits, p, id);
        }
      }
    case _ =>
  }

  lemma CreateKeeps(limits: Limits, p: Spool, id: nat)
    requires Inv(limits, p) && id in p.calls
    ensures Inv(limits, DoCreate(p, id))
  {
    var q, key := DoCreate(p, id), p.calls[id].key;
    if p.calls[id].phase.Creating? {
      if key in p.files {
        PhaseStep(limits, p, id, Undoing(Failed, None));
      } else {
        assert Answers(q.calls[id], key, q.files[key]);
        CallStep(limits, p, q, id);
      }
    }
  }

  lemma WriteKeeps(limits: Limits, p: Spool, q: Spool, id: nat, size: nat)
    requires Inv(limits, p) && Active(p, id) && p.calls[id].phase.Writing?
    requires (size <= p.calls[id].size && q == DoWritePart(p, id, size)) || q == DoWriteAll(p, id)
    ensures Inv(limits, q)
  {
    var key := p.calls[id].key;
    assert OnlyLoses(p.files, q.files, p.writes) by {
      if key in p.files { assert FileOk(limits, p, key); }
    }
    if key in q.files { assert Answers(q.calls[id], key, q.files[key]); }
    CallStep(limits, p, q, id);
  }

  lemma UnlinkKeeps(limits: Limits, p: Spool, id: nat)
    requires Inv(limits, p) && id in p.calls
    ensures Inv(limits, DoUnlink(p, id))
  {
    if p.calls[id].phase.Undoing? { CallStep(limits, p, DoUnlink(p, id), id); }
  }

  lemma RemoveKeeps(limits: Limits, p: Spool, name: nat)
    requires Inv(limits, p)
    ensures Inv(limits, p.(files := p.files - {name}))
  {
    var q := p.(files := p.files - {name});
    forall k | k in q.files ensures FileOk(limits, q, k) {
      FileKept(limits, p, q, k);
    }
    forall x | x in q.calls ensures CallOk(q, q.calls[x]) { CallStays(p, q, p.calls[x]); }
  }

  lemma FileKept(limits: Limits, p: Spool, q: Spool, key: nat)
    requires OnlyLoses(p.files, q.files, p.writes) && q.calls == p.calls
    requires key in p.files && key in q.files && q.files[key] == p.files[key] && FileOk(limits, p, key)
    requires p.files[key].rank.Some? ==> p.files[key].rank.value < p.writes
    ensures FileOk(limits, q, key)
  {
    FileStays(limits, p, q, 0, key);
  }

  lemma StepKeeps(limits: Limits, p: Spool, s: Step)
    requires Inv(limits, p)
    ensures Inv(limits, Apply(limits, p, s))
  {
    match s
    case Begin(id, key, size) => BeginKeeps(limits, p, id, key, size);
    case CheckExists(id, identical) => if id in p.calls { CheckKeeps(limits, p, id, identical); }
    case ReadDirectory(id) => if id in p.calls { ReadKeeps(limits, p, id); }
    case Stat(id, name) => if id in p.calls { StatKeeps(limits, p, id, name); }
    case Decide(id) => if id in p.calls { DecideKeeps(limits, p, id); }
    case Create(id) => if id in p.calls { CreateKeeps(limits, p, id); }
    case WritePart(id, size) =>
      if id in p.calls && p.calls[id].phase.Writing? && size <= p.calls[id].size { WriteKeeps(limits, p, DoWritePart(p, id, size), id, size); }
    case WriteAll(id) =>
      if id in p.calls && p.calls[id].phase.Writing? { WriteKeeps(limits, p, DoWriteAll(p, id), id, 0); }
    case WriteFails(id) =>
      if id in p.calls && p.calls[id].phase.Writing? { PhaseFails(limits, p, id); }
    case Unlink(id) => if id in p.calls { UnlinkKeeps(limits, p, id); }
    case Remove(name) => RemoveKeeps(limits, p, name);
    case Crash(id) => if Active(p, id) { PhaseStep(limits, p, id, Finished(OutcomeOfCrash(p.calls[id].phase))); }
  }

  lemma PhaseFails(limits: Limits, p: Spool, id: nat)
    requires Inv(limits, p) && Active(p, id) && p.calls[id].phase.Writing?
    ensures Inv(limits, To(p, id, Undoing(Failed, None)))
  {
    PhaseStep(limits, p, id, Undoing(Failed, None));
  }

  // ----- Every run ------------------------------------------------------------

  lemma {:induction false} RunKeeps(limits: Limits, p: Spool, steps: seq<Step>)
    requires Inv(limits, p)
    ensures Inv(limits, Run(limits, p, steps))
    decreases |steps|
  {
    if steps != [] {
      StepKeeps(limits, p, steps[0]);
      RunKeeps(limits, Apply(limits, p, steps[0]), steps[1..]);
    }
  }

  // A spool that nobody is using, filled by earlier calls.
  ghost predicate Quiet(p: Spool) {
    && p.calls == map[]
    && p.writes > 0
    && (forall k :: k in p.files ==> p.files[k].rank == Some(0))
  }

  predicate Idle(p: Spool) {
    forall id :: id in p.calls ==> p.calls[id].phase.Finished?
  }

  lemma QuietIsOk(limits: Limits, p: Spool)
    requires Quiet(p) && Within(limits, p.files, p.files.Keys)
    ensures Inv(limits, p)
  {
    assert Low(p.files, 0) == p.files.Keys;
  }

  lemma {:induction false} LatestFile(files: Files, s: set<nat>) returns (latest: nat)
    requires s != {} && s <= files.Keys && forall k :: k in s ==> files[k].rank.Some?
    ensures latest in s && forall k :: k in s ==> files[k].rank.value <= files[latest].rank.value
    decreases |s|
  {
    var x :| x in s;
    latest := x;
    if s != {x} {
      var y := LatestFile(files, s - {x});
      if files[y].rank.value > files[x].rank.value { latest := y; }
    }
  }

  // What no dead call has left behind.
  ghost function Kept(p: Spool): set<nat> {
    set k | k in p.files && forall id :: id in p.calls ==> !Left(p.calls[id], k, p.files[k])
  }

  // Whenever no enqueue is at work, the files that no dead process has left behind are
  // within both limits, whatever the calls, the crashes and the flushes did in between
  // and however they were interleaved.
  lemma IdleSpoolWithoutLeftoversIsWithinLimits(limits: Limits, p: Spool, steps: seq<Step>)
    requires Quiet(p) && Within(limits, p.files, p.files.Keys) && Idle(Run(limits, p, steps))
    ensures var q := Run(limits, p, steps); Within(limits, q.files, Kept(q))
  {
    QuietIsOk(limits, p);
    RunKeeps(limits, p, steps);
    KeptIsWithin(limits, Run(limits, p, steps));
  }

  lemma KeptIsWithin(limits: Limits, q: Spool)
    requires Inv(limits, q) && Idle(q)
    ensures Within(limits, q.files, Kept(q))
  {
    var kept := Kept(q);
    if kept != {} {
      forall k | k in kept ensures q.files[k].rank.Some? && Within(limits, q.files, Low(q.files, q.files[k].rank.value)) {
        assert FileOk(limits, q, k);
      }
      var latest := LatestFile(q.files, kept);
      assert kept <= Low(q.files, q.files[latest].rank.value);
      BytesOfSubset(q.files, Low(q.files, q.files[latest].rank.value), q.files, kept);
      FewerNames(kept, Low(q.files, q.files[latest].rank.value));
    }
  }

  ghost predicate NobodyDiedHalfway(p: Spool) {
    forall id :: id in p.calls && p.calls[id].phase.Finished? ==> !p.calls[id].phase.outcome.Abandoned?
  }

  // If no process died between creating its file and its recheck, that is the whole
  // spool.
  lemma IdleSpoolIsWithinLimits(limits: Limits, p: Spool, steps: seq<Step>)
    requires Quiet(p) && Within(limits, p.files, p.files.Keys)
    requires Idle(Run(limits, p, steps)) && NobodyDiedHalfway(Run(limits, p, steps))
    ensures var files := Run(limits, p, steps).files;
            |files| <= limits.maxEntries && Bytes(files, files.Keys) <= limits.maxBytes
  {
    IdleSpoolWithoutLeftoversIsWithinLimits(limits, p, steps);
    var q := Run(limits, p, steps);
    assert Kept(q) == q.files.Keys;
    assert |q.files| == |q.files.Keys|;
  }

  // At any moment, also with calls at work: a file that no call answers for any
  // more, together with all that was complete when it was, is within both limits.
  lemma SettledFilesAreWithinLimits(limits: Limits, p: Spool, steps: seq<Step>, key: nat)
    requires Quiet(p) && Within(limits, p.files, p.files.Keys)
    requires var q := Run(limits, p, steps);
      key in q.files && forall id :: id in q.calls ==> !Answers(q.calls[id], key, q.files[key])
    ensures var q := Run(limits, p, steps);
      q.files[key].rank.Some? && Within(limits, q.files, Low(q.files, q.files[key].rank.value))
  {
    QuietIsOk(limits, p);
    RunKeeps(limits, p, steps);
    assert FileOk(limits, Run(limits, p, steps), key);
  }

  // ----- Calls that succeed ------------------------------------------------------------

  // A call decides to create exactly when its count left room, and keeps what it stored
  // exactly when its recheck found no limit exceeded.
  lemma DecidedExactly(limits: Limits, p: Spool, id: nat)
    requires id in p.calls && (p.calls[id].phase.Before? || p.calls[id].phase.After?) && p.calls[id].phase.scan.todo == {}
    ensures var q := Apply(limits, p, Decide(id)); var (c, phase) := (p.calls[id], q.calls[id].phase);
      && q.files == p.files
      && (c.phase.Before? && |c.phase.scan.names| + 1 <= limits.maxEntries && c.phase.scan.bytes + c.size <= limits.maxBytes <==> phase == Creating)
      && (c.phase.Before? && phase != Creating ==> phase == Finished(Full))
      && (c.phase.After? && |c.phase.scan.names| <= limits.maxEntries && c.phase.scan.bytes <= limits.maxBytes <==> phase == Finished(Stored))
      && (c.phase.After? && phase != Finished(Stored) ==> phase == Undoing(Full, Some(c.phase.rank)))
  {
  }

  // A pass over the directory that nobody disturbs adds up the sizes of all its files.
  lemma {:induction false} StatsAll(limits: Limits, p: Spool, id: nat) returns (steps: seq<Step>)
    requires id in p.calls && (p.calls[id].phase.Before? || p.calls[id].phase.After?) && p.calls[id].phase.scan.todo <= p.files.Keys
    ensures var scan := p.calls[id].phase.scan;
      Run(limits, p, steps) == To(p, id, p.calls[id].phase.(scan := Scan(scan.names, {}, scan.bytes + Bytes(p.files, scan.todo))))
    decreases |p.calls[id].phase.scan.todo|
  {
    var c := p.calls[id];
    var scan := c.phase.scan;
    if scan.todo == {} {
      steps := [];
      assert p.calls[id := c] == p.calls;
    } else {
      var x :| x in scan.todo;
      var q := Apply(limits, p, Stat(id, x));
      assert q == To(p, id, c.phase.(scan := Look(scan, x, p.files[x].size)));
      BytesWithout(p.files, scan.todo, x);
      var rest := StatsAll(limits, q, id);
      steps := [Stat(id, x)] + rest;
      RunCons(limits, p, Stat(id, x), rest);
    }
  }

  lemma RunCons(limits: Limits, p: Spool, s: Step, rest: seq<Step>)
    ensures Run(limits, p, [s] + rest) == Run(limits, Apply(limits, p, s), rest)
  {
    assert ([s] + rest)[0] == s && ([s] + rest)[1..] == rest;
  }

  // From a listing to the decision.
  lemma MeasuresAll(limits: Limits, p: Spool, id: nat) returns (steps: seq<Step>)
    requires id in p.calls && (p.calls[id].phase.ListingBefore? || p.calls[id].phase.ListingAfter?)
    ensures var all := Scan(p.files.Keys, {}, Bytes(p.files, p.files.Keys));
      Run(limits, p, steps) == Apply(limits,
        To(p, id, if p.calls[id].phase.ListingBefore? then Before(all) else After(p.calls[id].phase.rank, all)), Decide(id))
  {
    var p1 := Apply(limits, p, ReadDirectory(id));
    var stats := StatsAll(limits, p1, id);
    var p2 := Run(limits, p1, stats);
    steps := [ReadDirectory(id)] + (stats + [Decide(id)]);
    RunCons(limits, p, ReadDirectory(id), stats + [Decide(id)]);
    RunAppend(limits, p1, stats, [Decide(id)]);
    RunOne(limits, p2, Decide(id));
  }

  lemma RunOne(limits: Limits, p: Spool, s: Step)
    ensures Run(limits, p, [s]) == Apply(limits, p, s)
  {
    assert Run(limits, Apply(limits, p, s), []) == Apply(limits, p, s);
  }

  // What a call that nobody disturbs comes to: `identical` says whether a file of its
  // name, if there is one, holds the same bytes.
  ghost function OutcomeAlone(limits: Limits, files: Files, key: nat, size: nat, identical: bool): Outcome {
    if size > limits.maxEntryBytes then TooLarge
    else if key in files then (if identical then Same else Conflict)
    else if |files| < limits.maxEntries && Bytes(files, files.Keys) + size <= limits.maxBytes then Stored
    else Full
  }

  // It stores its entry when that is new and fits beside all files that are there, and
  // otherwise leaves the spool as it is.
  lemma UndisturbedOutcome(limits: Limits, p: Spool, id: nat, key: nat, size: nat, identical: bool) returns (steps: seq<Step>)
    requires id !in p.calls && !KeyBusy(p, key)
    ensures var outcome := OutcomeAlone(limits, p.files, key, size, identical); var q := Run(limits, p, steps);
      && q.files == (if outcome == Stored then p.files[key := File(size, Some(p.writes))] else p.files)
      && q.calls == p.calls[id := Call(key, size, Finished(outcome))]
  {
    RunTwo(limits, p, Begin(id, key, size), CheckExists(id, identical));
    steps := [Begin(id, key, size), CheckExists(id, identical)];
    var p2 := Run(limits, p, steps);
    if size <= limits.maxEntryBytes && key !in p.files {
      assert p2 == p.(calls := p.calls[id := Call(key, size, ListingBefore)]);
      var rest := NewEntryOutcome(limits, p2, id);
      RunAppend(limits, p, steps, rest);
      steps := steps + rest;
    }
  }

  lemma NewEntryOutcome(limits: Limits, p: Spool, id: nat) returns (steps: seq<Step>)
    requires id in p.calls && p.calls[id].phase.ListingBefore? && p.calls[id].key !in p.files
    ensures var c := p.calls[id]; var q := Run(limits, p, steps);
      if |p.files| < limits.maxEntries && Bytes(p.files, p.files.Keys) + c.size <= limits.maxBytes
      then q.files == p.files[c.key := File(c.size, Some(p.writes))] && q.calls == p.calls[id := c.(phase := Finished(Stored))]
      else q.files == p.files && q.calls == p.calls[id := c.(phase := Finished(Full))]
  {
    var c := p.calls[id];
    steps := MeasuresAll(limits, p, id);
    assert |p.files.Keys| == |p.files|;
    if |p.files| < limits.maxEntries && Bytes(p.files, p.files.Keys) + c.size <= limits.maxBytes {
      var p3 := Run(limits, p, steps);
      assert p3 == To(p, id, Creating);
      var rest := CreatedIsStored(limits, p3, id, Bytes(p.files, p.files.Keys));
      RunAppend(limits, p, steps, rest);
      steps := steps + rest;
    }
  }

  lemma CreatedIsStored(limits: Limits, p: Spool, id: nat, bytes: nat) returns (steps: seq<Step>)
    requires id in p.calls && p.calls[id].phase.Creating? && p.calls[id].key !in p.files
    requires bytes == Bytes(p.files, p.files.Keys) && |p.files| + 1 <= limits.maxEntries && bytes + p.calls[id].size <= limits.maxBytes
    ensures var q := Run(limits, p, steps); var c := p.calls[id];
      q.files == p.files[c.key := File(c.size, Some(p.writes))] && q.calls == p.calls[id := c.(phase := Finished(Stored))]
  {
    var p2 := CreatedWhole(limits, p, id);
    var measure := MeasuresAll(limits, p2, id);
    steps := [Create(id), WriteAll(id)] + measure;
    RunAppend(limits, p, [Create(id), WriteAll(id)], measure);
    OneMoreFile(p.files, p.calls[id].key, File(p.calls[id].size, Some(p.writes)));
  }

  lemma CreatedWhole(limits: Limits, p: Spool, id: nat) returns (q: Spool)
    requires id in p.calls && p.calls[id].phase.Creating? && p.calls[id].key !in p.files
    ensures q == Run(limits, p, [Create(id), WriteAll(id)])
    ensures var c := p.calls[id];
      q.files == p.files[c.key := File(c.size, Some(p.writes))] && q.calls == p.calls[id := c.(phase := ListingAfter(p.writes))]
  {
    RunTwo(limits, p, Create(id), WriteAll(id));
    q := Apply(limits, Apply(limits, p, Create(id)), WriteAll(id));
  }

  lemma OneMoreFile(files: Files, key: nat, f: File)
    requires key !in files
    ensures var more := files[key := f];
      |more.Keys| == |files| + 1 && Bytes(more, more.Keys) == Bytes(files, files.Keys) + f.size
  {
    var more := files[key := f];
    assert more.Keys == files.Keys + {key} && more.Keys - {key} == files.Keys && |files.Keys| == |files|;
    BytesWithout(more, more.Keys, key);
    SameBytes(more, files, files.Keys);
  }

  lemma {:induction false} SameBytes(a: Files, b: Files, s: set<nat>)
    requires s <= a.Keys && s <= b.Keys && forall x :: x in s ==> a[x] == b[x]
    ensures Bytes(a, s) == Bytes(b, s)
    decreases |s|
  {
    BytesOfSubset(a, s, b, s);
    BytesOfSubset(b, s, a, s);
  }

  // A call that meets a file which a flush has taken away fails: at once before it has
  // created its own, and else after it has unlinked that.
  lemma VanishedFileFails(limits: Limits, p: Spool, id: nat, name: nat)
    requires id in p.calls && (p.calls[id].phase.Before? || p.calls[id].phase.After?)
    requires name in p.calls[id].phase.scan.todo && name !in p.files
    ensures var c := p.calls[id]; var q := Apply(limits, p, Stat(id, name));
      if c.phase.Before? then q == p.(calls := p.calls[id := c.(phase := Finished(Failed))])
      else Apply(limits, q, Unlink(id)) == p.(files := p.files - {c.key}, calls := p.calls[id := c.(phase := Finished(Failed))])
  {
  }

  // A write that fails half-way leaves no file behind.
  lemma FailedWriteLeavesNothing(limits: Limits, p: Spool, id: nat, part: nat)
    requires id in p.calls && p.calls[id].phase.Writing? && p.calls[id].key in p.files && part <= p.calls[id].size
    ensures var c := p.calls[id]; var q := Apply(limits, p, WritePart(id, part));
      && q.calls == p.calls && q.files == p.files[c.key := File(part, None)]
      && Run(limits, q, [WriteFails(id), Unlink(id)])
        == p.(files := p.files - {c.key}, calls := p.calls[id := c.(phase := Finished(Failed))])
  {
    RunTwo(limits, Apply(limits, p, WritePart(id, part)), WriteFails(id), Unlink(id));
  }

  // A flush that takes one file away makes room for another one.
  lemma FlushMakesRoom(limits: Limits, p: Spool, name: nat, id: nat, key: nat, size: nat) returns (steps: seq<Step>)
    requires id !in p.calls && !KeyBusy(p, key) && key !in p.files && name in p.files
    requires size <= limits.maxEntryBytes && |p.files| <= limits.maxEntries
    requires Bytes(p.files, p.files.Keys) + size <= limits.maxBytes + p.files[name].size
    ensures var q := Run(limits, p, [Remove(name)] + steps);
      q.files == (p.files - {name})[key := File(size, Some(p.writes))] && q.calls == p.calls[id := Call(key, size, Finished(Stored))]
  {
    var p1 := Apply(limits, p, Remove(name));
    OneMoreFile(p1.files, name, p.files[name]);
    assert p1.files[name := p.files[name]] == p.files;
    steps := UndisturbedOutcome(limits, p1, id, key, size, false);
    RunCons(limits, p, Remove(name), steps);
  }

  // ----- What a crash between create and recheck does ----------------------------

  lemma {:induction false} RunAppend(limits: Limits, p: Spool, a: seq<Step>, b: seq<Step>)
    ensures Run(limits, p, a + b) == Run(limits, Run(limits, p, a), b)
    decreases |a|
  {
    if a == [] {
      assert a + b == b;
    } else {
      assert (a + b)[1..] == a[1..] + b;
      RunAppend(limits, Apply(limits, p, a[0]), a[1..], b);
    }
  }

  lemma RunTwo(limits: Limits, p: Spool, a: Step, b: Step)
    ensures Run(limits, p, [a, b]) == Apply(limits, Apply(limits, p, a), b)
  {
    assert [a, b][1..] == [b] && [b][1..] == [];
    assert Run(limits, Apply(limits, p, a), [b]) == Apply(limits, Apply(limits, p, a), b);
  }

  lemma RunFour(limits: Limits, p: Spool, a: Step, b: Step, c: Step, d: Step)
    ensures Run(limits, p, [a, b, c, d]) == Apply(limits, Apply(limits, Apply(limits, Apply(limits, p, a), b), c), d)
  {
    assert [a, b, c, d] == [a, b] + [c, d];
    RunAppend(limits, p, [a, b], [c, d]);
    RunTwo(limits, p, a, b);
    RunTwo(limits, Apply(limits, Apply(limits, p, a), b), c, d);
  }

  // Two calls that saw the same free place create their files and then both crash.
  lemma CrashAfterCreateExceedsLimit()
    ensures var limits := Limits(1, 8, 8);
      var steps := [Begin(0, 0, 1), Begin(1, 1, 1), CheckExists(0, false), CheckExists(1, false)]
        + [ReadDirectory(0), ReadDirectory(1), Decide(0), Decide(1)]
        + [Create(0), Create(1), Crash(0), Crash(1)];
      var q := Run(limits, Spool(map[], 1, map[]), steps);
      Idle(q) && |q.files| > limits.maxEntries
  {
    var limits, p := Limits(1, 8, 8), Spool(map[], 1, map[]);
    var a := [Begin(0, 0, 1), Begin(1, 1, 1), CheckExists(0, false), CheckExists(1, false)];
    var b := [ReadDirectory(0), ReadDirectory(1), Decide(0), Decide(1)];
    var c := [Create(0), Create(1), Crash(0), Crash(1)];
    RunAppend(limits, p, a + b, c);
    RunAppend(limits, p, a, b);
    var p1 := AfterBegin(limits, p);
    var p2 := AfterListing(limits, p1);
    AfterCrash(limits, p2);
  }

  lemma AfterBegin(limits: Limits, p: Spool) returns (q: Spool)
    requires limits == Limits(1, 8, 8) && p == Spool(map[], 1, map[])
    ensures q == Run(limits, p, [Begin(0, 0, 1), Begin(1, 1, 1), CheckExists(0, false), CheckExists(1, false)])
    ensures q == Spool(map[], 1, map[0 := Call(0, 1, ListingBefore), 1 := Call(1, 1, ListingBefore)])
  {
    RunFour(limits, p, Begin(0, 0, 1), Begin(1, 1, 1), CheckExists(0, false), CheckExists(1, false));
    q := Spool(map[], 1, map[0 := Call(0, 1, ListingBefore), 1 := Call(1, 1, ListingBefore)]);
    var p1 := Apply(limits, p, Begin(0, 0, 1));
    assert p1 == Spool(map[], 1, map[0 := Call(0, 1, Checking)]);
    var p2 := Apply(limits, p1, Begin(1, 1, 1));
    assert p2 == Spool(map[], 1, map[0 := Call(0, 1, Checking), 1 := Call(1, 1, Checking)]);
    var p3 := Apply(limits, p2, CheckExists(0, false));
    assert p3 == Spool(map[], 1, map[0 := Call(0, 1, ListingBefore), 1 := Call(1, 1, Checking)]);
    assert Apply(limits, p3, CheckExists(1, false)) == q;
  }

  lemma AfterListing(limits: Limits, p: Spool) returns (q: Spool)
    requires limits == Limits(1, 8, 8)
    requires p == Spool(map[], 1, map[0 := Call(0, 1, ListingBefore), 1 := Call(1, 1, ListingBefore)])
    ensures q == Run(limits, p, [ReadDirectory(0), ReadDirectory(1), Decide(0), Decide(1)])
    ensures q == Spool(map[], 1, map[0 := Call(0, 1, Creating), 1 := Call(1, 1, Creating)])
  {
    RunFour(limits, p, ReadDirectory(0), ReadDirectory(1), Decide(0), Decide(1));
    q := Spool(map[], 1, map[0 := Call(0, 1, Creating), 1 := Call(1, 1, Creating)]);
    var none: map<nat, File> := map[];
    var empty := Scan(none.Keys, none.Keys, 0);
    var p1 := Apply(limits, p, ReadDirectory(0));
    assert p1 == Spool(map[], 1, map[0 := Call(0, 1, Before(empty)), 1 := Call(1, 1, ListingBefore)]);
    var p2 := Apply(limits, p1, ReadDirectory(1));
    assert p2 == Spool(map[], 1, map[0 := Call(0, 1, Before(empty)), 1 := Call(1, 1, Before(empty))]);
    assert empty.todo == {} && |empty.names| == 0;
    var p3 := Apply(limits, p2, Decide(0));
    assert p3 == Spool(map[], 1, map[0 := Call(0, 1, Creating), 1 := Call(1, 1, Before(empty))]);
    assert Apply(limits, p3, Decide(1)) == q;
  }

  lemma AfterCrash(limits: Limits, p: Spool)
    requires p == Spool(map[], 1, map[0 := Call(0, 1, Creating), 1 := Call(1, 1, Creating)])
    ensures var q := Run(limits, p, [Create(0), Create(1), Crash(0), Crash(1)]); Idle(q) && |q.files| == 2
  {
    RunFour(limits, p, Create(0), Create(1), Crash(0), Crash(1));
    var f := File(0, None);
    var p1 := Apply(limits, p, Create(0));
    assert p1 == Spool(map[0 := f], 1, map[0 := Call(0, 1, Writing), 1 := Call(1, 1, Creating)]);
    var p2 := Apply(limits, p1, Create(1));
    assert p2 == Spool(map[0 := f, 1 := f], 1, map[0 := Call(0, 1, Writing), 1 := Call(1, 1, Writing)]);
    var p3 := Apply(limits, p2, Crash(0));
    assert p3 == Spool(map[0 := f, 1 := f], 1, map[0 := Call(0, 1, Finished(Abandoned(None))), 1 := Call(1, 1, Writing)]);
    var p4 := Apply(limits, p3, Crash(1));
    assert p4.files == map[0 := f, 1 := f];
    assert p4.files.Keys == {0, 1};
  }
}
