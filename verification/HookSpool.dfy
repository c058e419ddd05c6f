// The hook spool as one process sees it: a directory of entries, a quarantine
// beside it, and a flush that may stop after any system call.
module HookSpool {
  import opened Ordering
  import Capacity = SpoolCapacity

  datatype Option<+T> = None | Some(value: T)

  datatype Request = Request(key: string, body: string)

  datatype File = File(mtime: int, bytes: string, private: bool)

  type Directory = map<nat, File>

  // canonicalJson and the request schema, and the digest that names a file. Names
  // are 64 lower-case hexadecimal digits, so their order is that of the numbers.
  datatype Codec = Codec(encode: Request -> string, decode: string -> Option<Request>, digest: string -> nat)

  ghost predicate RoundTrips(c: Codec) {
    forall r :: c.decode(c.encode(r)) == Some(r)
  }

  type Limits = Capacity.Limits

  const QUARANTINE_LIMIT: nat := 64

  // ----- Listing a directory by (mtime, name) -----------------------------------

  datatype Entry = Entry(mtime: int, name: nat)

  predicate Older(a: Entry, b: Entry) {
    a.mtime < b.mtime || (a.mtime == b.mtime && a.name <= b.name)
  }

  ghost predicate IsListing(files: Directory, l: seq<Entry>) {
    && SortedBy(Older, l)
    && Distinct(l)
    && (forall e {:trigger e in l} :: e in l <==> e.name in files && files[e.name].mtime == e.mtime)
  }

  ghost function Unordered(names: set<nat>, files: Directory): (l: seq<Entry>)
    requires names <= files.Keys
    ensures Distinct(l) && forall e :: e in l <==> e.name in names && files[e.name].mtime == e.mtime
    decreases |names|
  {
    if names == {} then []
    else var n :| n in names; [Entry(files[n].mtime, n)] + Unordered(names - {n}, files)
  }

  lemma SortLists(files: Directory, l: seq<Entry>)
    requires Distinct(l) && forall e :: e in l <==> e.name in files && files[e.name].mtime == e.mtime
    ensures IsListing(files, Sort(Older, l))
  {
    SortSorts(Older, l);
    SameMembers(l, Sort(Older, l));
    DistinctMultiset(l);
    DistinctMultiset(Sort(Older, l));
  }

  ghost function Listing(files: Directory): (l: seq<Entry>)
    ensures IsListing(files, l)
  {
    SortLists(files, Unordered(files.Keys, files));
    Sort(Older, Unordered(files.Keys, files))
  }

  lemma ListingUnique(files: Directory, l: seq<Entry>)
    requires IsListing(files, l)
    ensures l == Listing(files)
  {
    DistinctSameMembers(l, Listing(files));
    SortedUnique(Older, l, Listing(files));
  }

  function Names(l: seq<Entry>): set<nat> {
    set e | e in l :: e.name
  }

  ghost predicate NamesDistinct(l: seq<Entry>) {
    forall i, j :: 0 <= i < j < |l| ==> l[i].name != l[j].name
  }

  lemma {:induction false} NamesCount(l: seq<Entry>)
    requires NamesDistinct(l)
    ensures |Names(l)| == |l|
    decreases |l|
  {
    if l != [] {
      NamesCount(l[1..]);
      assert Names(l) == {l[0].name} + Names(l[1..]);
      assert l[0].name !in Names(l[1..]);
    }
  }

  // A listing has one entry for every file.
  lemma ListingNames(files: Directory)
    ensures NamesDistinct(Listing(files))
    ensures Names(Listing(files)) == files.Keys
    ensures |Listing(files)| == |files|
  {
    var l := Listing(files);
    forall i, j | 0 <= i < j < |l| ensures l[i].name != l[j].name {
      assert l[i] in l && l[j] in l;
    }
    forall n | n in files ensures n in Names(l) {
      assert Entry(files[n].mtime, n) in l;
    }
    NamesCount(l);
    assert Names(l) == files.Keys;
  }

  // ----- Enqueue ----------------------------------------------------------------

  // The directory as the capacity model sees it.
  ghost function Sizes(files: Directory): Capacity.Files {
    map n | n in files :: Capacity.File(|files[n].bytes|, Capacity.Option.None)
  }

  ghost function TotalBytes(files: Directory): nat {
    Capacity.Bytes(Sizes(files), Sizes(files).Keys)
  }

  datatype Outcome = Stored | Same | Conflict | TooLarge | Full

  // `meanwhile` is what other processes add between the two counts.
  ghost function Enqueued(limits: Limits, files: Directory, meanwhile: Directory, name: nat, file: File): (Outcome, Directory) {
    if |file.bytes| > limits.maxEntryBytes then (TooLarge, files)
    else if name in files then (if files[name].bytes == file.bytes then Same else Conflict, files)
    else if |files| >= limits.maxEntries || TotalBytes(files) + |file.bytes| > limits.maxBytes then (Full, files)
    else
      var after := (files + meanwhile)[name := file];
      if |after| > limits.maxEntries || TotalBytes(after) > limits.maxBytes then (Full, files + meanwhile)
      else (Stored, after)
  }

  lemma TotalWithOneMore(files: Directory, name: nat, file: File)
    requires name !in files
    ensures TotalBytes(files[name := file]) == TotalBytes(files) + |file.bytes|
  {
    var a, b := Sizes(files), Sizes(files[name := file]);
    Capacity.BytesWithout(b, b.Keys, name);
    assert b.Keys - {name} == a.Keys;
    Capacity.BytesOfSubset(a, a.Keys, b, a.Keys);
    Capacity.BytesOfSubset(b, a.Keys, a, a.Keys);
  }

  // Alone, an enqueue that passes the first count passes the second: a new entry
  // is stored exactly when it fits, and storing it again changes nothing.
  lemma AloneStoredExactlyWhenItFits(limits: Limits, files: Directory, name: nat, file: File)
    requires |file.bytes| <= limits.maxEntryBytes && name !in files
    ensures var (outcome, after) := Enqueued(limits, files, map[], name, file);
      && (outcome == Stored <==> |files| + 1 <= limits.maxEntries && TotalBytes(files) + |file.bytes| <= limits.maxBytes)
      && (outcome == Stored ==>
            && after == files[name := file]
            && |after| <= limits.maxEntries && TotalBytes(after) <= limits.maxBytes
            && forall m: int, more: Directory ::
                 Enqueued(limits, after, more, name, File(m, file.bytes, true)) == (Same, after))
      && (outcome != Stored ==> outcome == Full && after == files)
  {
    assert files + map[] == files;
    TotalWithOneMore(files, name, file);
    assert |files[name := file]| == |files| + 1;
  }

  // ----- Flush --------------------------------------------------------------------

  // What is on disk, and what has happened to entries that are gone: the requests
  // the server got, in order, and the files moved to the quarantine.
  datatype Disk = Disk(files: Directory, quarantine: Directory, delivered: seq<Request>, buried: set<File>)

  datatype FateKind = Proceeds | SendFails | CrashBefore | CrashAfter

  // How the handling of one entry ends; `uuid` names its place in the quarantine.
  datatype Fate = Fate(kind: FateKind, uuid: nat)

  function FateAt(fates: seq<Fate>, i: nat): Fate {
    if i < |fates| then fates[i] else Fate(Proceeds, 0)
  }

  // The request that an entry holds, when it can be read.
  function Readable(c: Codec, limits: Limits, f: File): Option<Request> {
    if !f.private || |f.bytes| > limits.maxEntryBytes then None else c.decode(f.bytes)
  }

  function Bury(d: Disk, name: nat, uuid: nat): Disk
    requires name in d.files
  {
    d.(files := d.files - {name}, quarantine := d.quarantine[uuid := d.files[name]], buried := d.buried + {d.files[name]})
  }

  // The loop that unlinks the oldest until the limit is met.
  function TrimmedBy(q: Directory, l: seq<Entry>): Directory {
    if |l| <= QUARANTINE_LIMIT then q else q - Names(l[..|l| - QUARANTINE_LIMIT])
  }

  ghost function Trimmed(q: Directory): Directory {
    TrimmedBy(q, Listing(q))
  }

  ghost function Buried(d: Disk, name: nat, uuid: nat): Disk
    requires name in d.files
  {
    var e := Bury(d, name, uuid);
    e.(quarantine := Trimmed(e.quarantine))
  }

  function Delivered(d: Disk, r: Request): Disk {
    d.(delivered := d.delivered + [r])
  }

  predicate Stops(c: Codec, limits: Limits, files: Directory, name: nat, fate: Fate) {
    || name !in files
    || fate.kind == CrashBefore || fate.kind == CrashAfter
    || (fate.kind == SendFails && Readable(c, limits, files[name]).Some?)
  }

  // What the entry at which the flush stops has done before it stopped.
  ghost function Stopped(c: Codec, limits: Limits, d: Disk, name: nat, fate: Fate): Disk {
    if name !in d.files || fate.kind != CrashAfter then d
    else match Readable(c, limits, d.files[name])
      case Some(r) => Delivered(d, r)
      case None => Bury(d, name, fate.uuid)
  }

  ghost function Handled(c: Codec, limits: Limits, d: Disk, name: nat, fate: Fate): Disk
    requires name in d.files
  {
    match Readable(c, limits, d.files[name])
    case Some(r) => Delivered(d.(files := d.files - {name}), r)
    case None => Buried(d, name, fate.uuid)
  }

  datatype Flushed = Flushed(disk: Disk, acknowledged: nat, completed: bool)

  ghost function FlushFrom(c: Codec, limits: Limits, d: Disk, todo: seq<Entry>, fates: seq<Fate>): Flushed
    decreases |todo|
  {
    if todo == [] then Flushed(d, 0, true)
    else
      var name, fate := todo[0].name, FateAt(fates, 0);
      if Stops(c, limits, d.files, name, fate) then Flushed(Stopped(c, limits, d, name, fate), 0, false)
      else
        var rest := FlushFrom(c, limits, Handled(c, limits, d, name, fate), todo[1..], if fates == [] then [] else fates[1..]);
        rest.(acknowledged := rest.acknowledged + if Readable(c, limits, d.files[name]).Some? then 1 else 0)
  }

  ghost function Batch(files: Directory, limit: int): seq<Entry> {
    var l := Listing(files);
    l[..if limit < 0 then 0 else if limit < |l| then limit else |l|]
  }

  ghost function Flush(c: Codec, limits: Limits, d: Disk, limit: int, fates: seq<Fate>): Flushed {
    FlushFrom(c, limits, d, Batch(d.files, limit), fates)
  }

  // ----- What a flush does --------------------------------------------------------

  // The first entry at which the flush stops.
  function FirstStop(c: Codec, limits: Limits, files: Directory, todo: seq<Entry>, fates: seq<Fate>): (k: nat)
    ensures k <= |todo|
    decreases |todo|
  {
    if todo == [] || Stops(c, limits, files, todo[0].name, FateAt(fates, 0)) then 0
    else 1 + FirstStop(c, limits, files, todo[1..], if fates == [] then [] else fates[1..])
  }

  // The requests in a list of entries, in order.
  function Requests(c: Codec, limits: Limits, files: Directory, l: seq<Entry>): seq<Request>
    requires forall e :: e in l ==> e.name in files
    decreases |l|
  {
    if l == [] then []
    else (match Readable(c, limits, files[l[0].name]) case Some(r) => [r] case None => []) + Requests(c, limits, files, l[1..])
  }

  lemma RequestsFrame(c: Codec, limits: Limits, a: Directory, b: Directory, l: seq<Entry>)
    requires forall e :: e in l ==> e.name in a && e.name in b && a[e.name] == b[e.name]
    ensures Requests(c, limits, a, l) == Requests(c, limits, b, l)
    decreases |l|
  {
    if l != [] { RequestsFrame(c, limits, a, b, l[1..]); }
  }

  lemma {:induction false} FirstStopFrame(c: Codec, limits: Limits, a: Directory, b: Directory, l: seq<Entry>, fates: seq<Fate>)
    requires forall e :: e in l ==> e.name in a && e.name in b && a[e.name] == b[e.name]
    ensures FirstStop(c, limits, a, l, fates) == FirstStop(c, limits, b, l, fates)
    decreases |l|
  {
    if l != [] { FirstStopFrame(c, limits, a, b, l[1..], if fates == [] then [] else fates[1..]); }
  }

  // Exactly the entries before the stop are gone, and what the server got is
  // exactly their requests in order, with the one at the stop only if the crash
  // came after its delivery. All later entries are untouched.
  ghost predicate FlushedUpTo(c: Codec, limits: Limits, d: Disk, todo: seq<Entry>, fates: seq<Fate>, k: nat, r: Flushed)
    requires k <= |todo| && forall e :: e in todo ==> e.name in d.files
  {
    && r.completed == (k == |todo|)
    && r.acknowledged == |Requests(c, limits, d.files, todo[..k])|
    && (var done := d.delivered + Requests(c, limits, d.files, todo[..k]);
        if r.completed || FateAt(fates, k).kind != CrashAfter then
          r.disk.files == d.files - Names(todo[..k]) && r.disk.delivered == done
        else match Readable(c, limits, d.files[todo[k].name])
          case Some(q) => r.disk.files == d.files - Names(todo[..k]) && r.disk.delivered == done + [q]
          case None => r.disk.files == d.files - Names(todo[..k + 1]) && r.disk.delivered == done)
  }

  lemma NamesStep(l: seq<Entry>, k: nat)
    requires 0 < k <= |l|
    ensures Names(l[..k]) == {l[0].name} + Names(l[1..][..k - 1])
  {
    assert l[..k] == [l[0]] + l[1..][..k - 1];
    assert forall e :: e in l[..k] <==> e == l[0] || e in l[1..][..k - 1];
  }

  lemma {:induction false} FlushFromStops(c: Codec, limits: Limits, d: Disk, todo: seq<Entry>, fates: seq<Fate>)
    requires NamesDistinct(todo) && forall e :: e in todo ==> e.name in d.files
    ensures FlushedUpTo(c, limits, d, todo, fates, FirstStop(c, limits, d.files, todo, fates), FlushFrom(c, limits, d, todo, fates))
    decreases |todo|
  {
    var k := FirstStop(c, limits, d.files, todo, fates);
    if todo == [] || k == 0 {
      assert todo[..0] == [] && Names([]) == {};
      if todo != [] { NamesStep(todo, 1); assert Names(todo[1..][..0]) == {}; }
    } else {
      var name, fate := todo[0].name, FateAt(fates, 0);
      var d1 := Handled(c, limits, d, name, fate);
      var tail, later := todo[1..], if fates == [] then [] else fates[1..];
      forall e | e in tail ensures e.name in d1.files && d1.files[e.name] == d.files[e.name] {
        assert e in todo && e.name != name;
      }
      FirstStopFrame(c, limits, d.files, d1.files, tail, later);
      FlushFromStops(c, limits, d1, tail, later);
      FlushStep(c, limits, d, d1, todo, tail, fates, later, k);
    }
  }

  // Handling the first entry and then j more is handling j + 1 entries.
  lemma PrefixStep(c: Codec, limits: Limits, d: Disk, d1: Disk, todo: seq<Entry>, fate: Fate, j: nat)
    requires j < |todo| && forall e :: e in todo ==> e.name in d.files
    requires d1 == Handled(c, limits, d, todo[0].name, fate)
    requires forall e :: e in todo[1..] ==> e.name in d1.files && d1.files[e.name] == d.files[e.name]
    ensures d1.files - Names(todo[1..][..j]) == d.files - Names(todo[..j + 1])
    ensures d1.delivered + Requests(c, limits, d1.files, todo[1..][..j]) == d.delivered + Requests(c, limits, d.files, todo[..j + 1])
    ensures |Requests(c, limits, d.files, todo[..j + 1])|
         == |Requests(c, limits, d1.files, todo[1..][..j])| + if Readable(c, limits, d.files[todo[0].name]).Some? then 1 else 0
  {
    var whole, rest := todo[..j + 1], todo[1..][..j];
    NamesStep(todo, j + 1);
    assert d1.files == d.files - {todo[0].name};
    assert whole[0] == todo[0] && whole[1..] == rest;
    RequestsPrefix(c, limits, d, d1, whole, rest);
  }

  lemma RequestsPrefix(c: Codec, limits: Limits, d: Disk, d1: Disk, whole: seq<Entry>, rest: seq<Entry>)
    requires whole != [] && rest == whole[1..]
    requires forall e :: e in whole ==> e.name in d.files
    requires forall e :: e in rest ==> e.name in d1.files && d1.files[e.name] == d.files[e.name]
    requires d1.delivered == d.delivered + (match Readable(c, limits, d.files[whole[0].name]) case Some(r) => [r] case None => [])
    ensures d1.delivered + Requests(c, limits, d1.files, rest) == d.delivered + Requests(c, limits, d.files, whole)
    ensures |Requests(c, limits, d.files, whole)|
         == |Requests(c, limits, d1.files, rest)| + if Readable(c, limits, d.files[whole[0].name]).Some? then 1 else 0
  {
    RequestsFrame(c, limits, d.files, d1.files, rest);
  }

  // One handled entry in front of a flush that behaves.
  lemma FlushStep(c: Codec, limits: Limits, d: Disk, d1: Disk, todo: seq<Entry>, tail: seq<Entry>, fates: seq<Fate>, later: seq<Fate>, k: nat)
    requires todo != [] && tail == todo[1..] && later == if fates == [] then [] else fates[1..]
    requires 0 < k <= |todo| && forall e :: e in todo ==> e.name in d.files
    requires !Stops(c, limits, d.files, todo[0].name, FateAt(fates, 0))
    requires d1 == Handled(c, limits, d, todo[0].name, FateAt(fates, 0))
    requires forall e :: e in tail ==> e.name in d1.files && d1.files[e.name] == d.files[e.name]
    requires FlushedUpTo(c, limits, d1, tail, later, k - 1, FlushFrom(c, limits, d1, tail, later))
    ensures FlushedUpTo(c, limits, d, todo, fates, k, FlushFrom(c, limits, d, todo, fates))
  {
    PrefixStep(c, limits, d, d1, todo, FateAt(fates, 0), k - 1);
    if k < |todo| {
      PrefixStep(c, limits, d, d1, todo, FateAt(fates, 0), k);
      assert FateAt(fates, k) == FateAt(later, k - 1);
      assert tail[k - 1] == todo[k];
      assert tail[k - 1] in tail;
    }
    var r, rest := FlushFrom(c, limits, d, todo, fates), FlushFrom(c, limits, d1, tail, later);
    assert r.disk == rest.disk && r.completed == rest.completed;
  }

  lemma BatchFacts(files: Directory, limit: int)
    ensures NamesDistinct(Batch(files, limit)) && SortedBy(Older, Batch(files, limit))
    ensures forall e :: e in Batch(files, limit) ==> e.name in files
  {
    ListingNames(files);
  }

  // Over every flush: deliveries follow (mtime, name) order, a failing send or a
  // crash leaves its entry's successors untouched, and nothing else goes.
  lemma FlushFollowsOrder(c: Codec, limits: Limits, d: Disk, limit: int, fates: seq<Fate>)
    ensures var todo := Batch(d.files, limit);
      && SortedBy(Older, todo)
      && (forall e :: e in todo ==> e.name in d.files)
      && FlushedUpTo(c, limits, d, todo, fates, FirstStop(c, limits, d.files, todo, fates), Flush(c, limits, d, limit, fates))
  {
    BatchFacts(d.files, limit);
    FlushFromStops(c, limits, d, Batch(d.files, limit), fates);
  }

  // ----- The quarantine -------------------------------------------------------------

  predicate NotNewer(a: File, an: nat, b: File, bn: nat) {
    Older(Entry(a.mtime, an), Entry(b.mtime, bn))
  }

  // Nothing that is gone is newer than anything that was kept.
  ghost predicate KeepsNewest(q: Directory, kept: Directory) {
    && (forall n :: n in kept ==> n in q && kept[n] == q[n])
    && (forall n, k :: n in q && n !in kept && k in kept && k in q ==> NotNewer(q[n], n, q[k], k))
  }

  lemma TrimCuts(q: Directory)
    requires |q| > QUARANTINE_LIMIT
    ensures |Trimmed(q)| == QUARANTINE_LIMIT && KeepsNewest(q, Trimmed(q))
  {
    ListingNames(q);
    TrimCutsListing(q, Listing(q));
  }

  lemma TrimCutsListing(q: Directory, l: seq<Entry>)
    requires |q| > QUARANTINE_LIMIT && |l| == |q| && IsListing(q, l)
    requires NamesDistinct(l) && Names(l) == q.Keys
    ensures |TrimmedBy(q, l)| == QUARANTINE_LIMIT && KeepsNewest(q, TrimmedBy(q, l))
  {
    var cut := |l| - QUARANTINE_LIMIT;
    var kept := q - Names(l[..cut]);
    assert TrimmedBy(q, l) == kept;
    CutSize(q, l, cut);
    CutKeepsNewest(q, l, cut);
  }

  lemma CutSize(q: Directory, l: seq<Entry>, cut: nat)
    requires NamesDistinct(l) && Names(l) == q.Keys && cut <= |l|
    ensures |q - Names(l[..cut])| == |q| - cut
  {
    NamesCount(l[..cut]);
    TrimmedCount(q, Names(l[..cut]));
  }

  lemma TrimKeepsAll(q: Directory)
    requires |q| <= QUARANTINE_LIMIT
    ensures Trimmed(q) == q
  {
    ListingNames(q);
  }

  // What is left after trimming is at most the limit, all of it when it fits, and
  // otherwise exactly as many of the newest.
  lemma TrimKeepsNewest(q: Directory)
    ensures if |q| <= QUARANTINE_LIMIT then Trimmed(q) == q else |Trimmed(q)| == QUARANTINE_LIMIT
    ensures KeepsNewest(q, Trimmed(q))
  {
    if |q| <= QUARANTINE_LIMIT { TrimKeepsAll(q); } else { TrimCuts(q); }
  }

  lemma CutKeepsNewest(q: Directory, l: seq<Entry>, cut: nat)
    requires IsListing(q, l) && cut <= |l|
    ensures KeepsNewest(q, q - Names(l[..cut]))
  {
    var kept := q - Names(l[..cut]);
    forall n, k | n in q && n !in kept && k in kept && k in q ensures NotNewer(q[n], n, q[k], k) {
      OldBeforeKept(q, l, cut, n, k);
    }
  }

  lemma TrimmedCount(q: Directory, gone: set<nat>)
    requires gone <= q.Keys
    ensures |q - gone| == |q| - |gone|
  {
    assert (q - gone).Keys == q.Keys - gone;
    assert |q.Keys| == |q| && |(q - gone).Keys| == |q - gone|;
  }

  lemma OldBeforeKept(q: Directory, l: seq<Entry>, cut: nat, n: nat, k: nat)
    requires IsListing(q, l) && cut <= |l|
    requires n in Names(l[..cut]) && k in q && k !in Names(l[..cut])
    ensures n in q && NotNewer(q[n], n, q[k], k)
  {
    var i :| 0 <= i < cut && l[..cut][i].name == n;
    assert l[i] in l && l[i] in l[..cut];
    assert Entry(q[k].mtime, k) in l;
    var j :| 0 <= j < |l| && l[j] == Entry(q[k].mtime, k);
  }

  // ----- Every run ------------------------------------------------------------------

  // What can happen to a spool over time. `Foreign` is a file that somebody else
  // put there under a name that is not in use.
  datatype Event =
    | Enqueue(request: Request, now: int, meanwhile: Directory)
    | FlushNow(limit: int, fates: seq<Fate>)
    | Foreign(name: nat, file: File)

  ghost function Happen(c: Codec, limits: Limits, d: Disk, e: Event): Disk {
    match e
    case Enqueue(r, now, meanwhile) =>
      if meanwhile.Keys !! (d.files.Keys + {c.digest(r.key)})
      then d.(files := Enqueued(limits, d.files, meanwhile, c.digest(r.key), File(now, c.encode(r), true)).1) else d
    case FlushNow(limit, fates) => Flush(c, limits, d, limit, fates).disk
    case Foreign(name, file) => if name in d.files then d else d.(files := d.files[name := file])
  }

  ghost function History(c: Codec, limits: Limits, d: Disk, events: seq<Event>): Disk
    decreases |events|
  {
    if events == [] then d else History(c, limits, Happen(c, limits, d, events[0]), events[1..])
  }

  // The file under a name, its request if it holds one, or the record of its end.
  ghost predicate Accounted(c: Codec, limits: Limits, name: nat, f: File, d: Disk) {
    || (name in d.files && d.files[name] == f)
    || (match Readable(c, limits, f)
        case Some(r) => r in d.delivered
        case None => f in d.buried)
  }

  ghost predicate LogsGrow(a: Disk, b: Disk) {
    a.delivered <= b.delivered && a.buried <= b.buried
  }

  lemma HandledAccounts(c: Codec, limits: Limits, d: Disk, name: nat, fate: Fate, n: nat)
    requires name in d.files && n in d.files
    ensures LogsGrow(d, Handled(c, limits, d, name, fate))
    ensures n != name ==> n in Handled(c, limits, d, name, fate).files && Handled(c, limits, d, name, fate).files[n] == d.files[n]
    ensures n == name ==> Accounted(c, limits, n, d.files[n], Handled(c, limits, d, name, fate))
  {
    match Readable(c, limits, d.files[name])
    case Some(r) => assert (d.delivered + [r])[|d.delivered|] == r;
    case None =>
  }

  lemma StoppedAccounts(c: Codec, limits: Limits, d: Disk, name: nat, fate: Fate, n: nat)
    requires n in d.files
    ensures LogsGrow(d, Stopped(c, limits, d, name, fate))
    ensures Accounted(c, limits, n, d.files[n], Stopped(c, limits, d, name, fate))
  {
  }

  lemma {:induction false} FlushAccounts(c: Codec, limits: Limits, d: Disk, todo: seq<Entry>, fates: seq<Fate>)
    ensures LogsGrow(d, FlushFrom(c, limits, d, todo, fates).disk)
    ensures forall n :: n in d.files ==> Accounted(c, limits, n, d.files[n], FlushFrom(c, limits, d, todo, fates).disk)
    decreases |todo|
  {
    if todo != [] {
      var name, fate := todo[0].name, FateAt(fates, 0);
      var end := FlushFrom(c, limits, d, todo, fates).disk;
      if Stops(c, limits, d.files, name, fate) {
        forall n | n in d.files ensures Accounted(c, limits, n, d.files[n], end) {
          StoppedAccounts(c, limits, d, name, fate, n);
        }
      } else {
        var d1 := Handled(c, limits, d, name, fate);
        HandledAccounts(c, limits, d, name, fate, name);
        FlushAccounts(c, limits, d1, todo[1..], if fates == [] then [] else fates[1..]);
        forall n | n in d.files ensures Accounted(c, limits, n, d.files[n], end) {
          HandledAccounts(c, limits, d, name, fate, n);
          if n == name { AccountedLater(c, limits, n, d.files[n], d1, end); }
        }
      }
    }
  }

  lemma AccountedLater(c: Codec, limits: Limits, n: nat, f: File, a: Disk, b: Disk)
    requires Accounted(c, limits, n, f, a) && LogsGrow(a, b)
    requires n in a.files ==> n in b.files && b.files[n] == a.files[n]
    ensures Accounted(c, limits, n, f, b)
  {
  }

  lemma HappenAccounts(c: Codec, limits: Limits, d: Disk, e: Event, name: nat, f: File)
    requires Accounted(c, limits, name, f, d)
    ensures Accounted(c, limits, name, f, Happen(c, limits, d, e))
  {
    match e
    case FlushNow(limit, fates) => FlushAccounts(c, limits, d, Batch(d.files, limit), fates);
    case Enqueue(r, now, meanwhile) =>
    case Foreign(n, file) =>
  }

  // Over every run of enqueues and flushes, with crashes anywhere in a flush, a
  // file that is in the spool is there unchanged later on, or its request reached
  // the server, or it could not be read and was quarantined.
  lemma {:induction false} NothingIsLost(c: Codec, limits: Limits, d: Disk, events: seq<Event>, name: nat, f: File)
    requires Accounted(c, limits, name, f, d)
    ensures Accounted(c, limits, name, f, History(c, limits, d, events))
    decreases |events|
  {
    if events != [] {
      HappenAccounts(c, limits, d, events[0], name, f);
      NothingIsLost(c, limits, Happen(c, limits, d, events[0]), events[1..], name, f);
    }
  }

  // What an enqueue stored is readable, so it is never quarantined: it is in the
  // spool with the same bytes, or the server has got the request at least once.
  lemma StoredIsKeptOrDelivered(c: Codec, limits: Limits, d: Disk, r: Request, now: int, meanwhile: Directory, events: seq<Event>)
    requires RoundTrips(c) && meanwhile.Keys !! (d.files.Keys + {c.digest(r.key)})
    requires Enqueued(limits, d.files, meanwhile, c.digest(r.key), File(now, c.encode(r), true)).0 == Stored
    ensures var end := History(c, limits, Happen(c, limits, d, Enqueue(r, now, meanwhile)), events);
      || (c.digest(r.key) in end.files && end.files[c.digest(r.key)] == File(now, c.encode(r), true))
      || r in end.delivered
  {
    var name, f := c.digest(r.key), File(now, c.encode(r), true);
    assert Readable(c, limits, f) == Some(r);
    NothingIsLost(c, limits, Happen(c, limits, d, Enqueue(r, now, meanwhile)), events, name, f);
  }

  // ----- In numbers ---------------------------------------------------------------------

  // The earlier modification time, at equal times the smaller name.
  predicate Before(files: Directory, a: nat, b: nat)
    requires a in files && b in files
  {
    files[a].mtime < files[b].mtime || (files[a].mtime == files[b].mtime && a < b)
  }

  lemma ListedInOrder(files: Directory, j: nat, k: nat)
    requires j < k < |Listing(files)|
    ensures var a, b := Listing(files)[j].name, Listing(files)[k].name; a in files && b in files && Before(files, a, b)
  {
    var l := Listing(files);
    ListingNames(files);
    assert l[j] in l && l[k] in l && Older(l[j], l[k]);
  }

  lemma PlaceOf(files: Directory, name: nat) returns (k: nat)
    requires name in files
    ensures k < |Listing(files)| && Listing(files)[k].name == name
  {
    assert Entry(files[name].mtime, name) in Listing(files);
    k :| 0 <= k < |Listing(files)| && Listing(files)[k] == Entry(files[name].mtime, name);
  }

  // Of the first `n` listed files every one comes before every other file.
  lemma FirstComeBefore(files: Directory, n: nat, a: nat, b: nat)
    requires n <= |Listing(files)| && a in Names(Listing(files)[..n]) && b in files && b !in Names(Listing(files)[..n])
    ensures a in files && Before(files, a, b)
  {
    var l := Listing(files);
    var e :| e in l[..n] && e.name == a;
    var j :| 0 <= j < n && l[j] == e;
    var k := PlaceOf(files, b);
    assert forall i :: 0 <= i < n ==> l[..n][i] == l[i] && l[i].name in Names(l[..n]);
    ListedInOrder(files, j, k);
  }

  // A flush never takes an entry while one that comes before it stays.
  lemma FlushedInOrder(c: Codec, limits: Limits, d: Disk, limit: int, fates: seq<Fate>, a: nat, b: nat)
    requires a in d.files && b in d.files && Before(d.files, a, b)
    ensures b !in Flush(c, limits, d, limit, fates).disk.files ==> a !in Flush(c, limits, d, limit, fates).disk.files
  {
    var todo := Batch(d.files, limit);
    var l := Listing(d.files);
    TakenIsPrefix(c, limits, d, limit, fates);
    var n: nat :| TakesFirst(d.files, Flush(c, limits, d, limit, fates).disk.files, todo, n);
    assert todo[..n] == l[..n];
    if a !in Names(l[..n]) && b in Names(l[..n]) { FirstComeBefore(d.files, n, b, a); }
  }

  ghost predicate TakesFirst(files: Directory, after: Directory, todo: seq<Entry>, n: nat) {
    n <= |todo| && after == files - Names(todo[..n])
  }

  lemma TakenIsPrefix(c: Codec, limits: Limits, d: Disk, limit: int, fates: seq<Fate>)
    ensures exists n: nat :: TakesFirst(d.files, Flush(c, limits, d, limit, fates).disk.files, Batch(d.files, limit), n)
  {
    var todo := Batch(d.files, limit);
    BatchFacts(d.files, limit);
    FlushFromStops(c, limits, d, todo, fates);
    var k := FirstStop(c, limits, d.files, todo, fates);
    var r := Flush(c, limits, d, limit, fates);
    assert TakesFirst(d.files, r.disk.files, todo, k) || TakesFirst(d.files, r.disk.files, todo, k + 1);
  }

  // At most 64 files stay in the quarantine, and every one that goes comes before every
  // one that stays.
  lemma Keeps64Newest(q: Directory)
    ensures |Trimmed(q)| == if |q| <= 64 then |q| else 64
    ensures forall x :: x in Trimmed(q) ==> x in q && Trimmed(q)[x] == q[x]
    ensures forall x, y :: x in Trimmed(q) && y in q && y !in Trimmed(q) ==> Before(q, y, x)
  {
    ListingNames(q);
    TrimKeepsNewest(q);
    if |q| > 64 {
      var n := |Listing(q)| - 64;
      forall x, y | x in Trimmed(q) && y in q && y !in Trimmed(q) ensures Before(q, y, x) {
        FirstComeBefore(q, n, y, x);
      }
    }
  }

  // Under a name that is in use nothing is ever stored: equal bytes are the same entry,
  // other bytes a conflict.
  lemma UsedNameExactly(limits: Limits, files: Directory, meanwhile: Directory, name: nat, file: File)
    requires name in files && |file.bytes| <= limits.maxEntryBytes
    ensures var (outcome, after) := Enqueued(limits, files, meanwhile, name, file);
      after == files && outcome == if files[name].bytes == file.bytes then Same else Conflict
  {
  }

  lemma TooLargeExactly(limits: Limits, files: Directory, meanwhile: Directory, name: nat, file: File)
    ensures Enqueued(limits, files, meanwhile, name, file).0 == TooLarge <==> |file.bytes| > limits.maxEntryBytes
  {
  }

  // ----- A flush that nothing disturbs -----------------------------------------------------

  lemma {:induction false} NothingStops(c: Codec, limits: Limits, files: Directory, todo: seq<Entry>)
    requires forall e :: e in todo ==> e.name in files
    ensures FirstStop(c, limits, files, todo, []) == |todo|
    decreases |todo|
  {
    if todo != [] {
      assert todo[0] in todo;
      NothingStops(c, limits, files, todo[1..]);
    }
  }

  // A private file of admitted size whose bytes are those of a request.
  predicate HoldsRequest(c: Codec, limits: Limits, f: File, q: Request) {
    f.private && |f.bytes| <= limits.maxEntryBytes && c.decode(f.bytes) == Some(q)
  }

  lemma {:induction false} RequestsHold(c: Codec, limits: Limits, files: Directory, l: seq<Entry>, e: Entry, q: Request)
    requires e in l && forall x :: x in l ==> x.name in files
    requires HoldsRequest(c, limits, files[e.name], q)
    ensures q in Requests(c, limits, files, l)
    decreases |l|
  {
    if l[0] != e { RequestsHold(c, limits, files, l[1..], e, q); }
  }

  // It takes every entry, and every request that can be read is delivered; what is
  // acknowledged is what was delivered.
  lemma FlushWithoutFaults(c: Codec, limits: Limits, d: Disk)
    ensures var r := Flush(c, limits, d, |d.files|, []);
      && r.completed && r.disk.files == map[] && |r.disk.delivered| == |d.delivered| + r.acknowledged
      && (forall n, q :: n in d.files && HoldsRequest(c, limits, d.files[n], q) ==> q in r.disk.delivered[|d.delivered|..])
  {
    var l := Listing(d.files);
    ListingNames(d.files);
    var todo := Batch(d.files, |d.files|);
    assert todo == l && todo[..|todo|] == todo;
    BatchFacts(d.files, |d.files|);
    NothingStops(c, limits, d.files, todo);
    FlushFromStops(c, limits, d, todo, []);
    assert d.files - d.files.Keys == map[];
    forall n, q | n in d.files && HoldsRequest(c, limits, d.files[n], q)
      ensures q in Requests(c, limits, d.files, todo)
    {
      var k := PlaceOf(d.files, n);
      RequestsHold(c, limits, d.files, todo, l[k], q);
    }
  }

  // The entry at which a flush stops has gone, or its process dies there, or its send
  // fails although it could be read; nothing else stops one.
  lemma StopsExactly(c: Codec, limits: Limits, files: Directory, todo: seq<Entry>, fates: seq<Fate>)
    requires var k := FirstStop(c, limits, files, todo, fates); k < |todo|
    ensures var k := FirstStop(c, limits, files, todo, fates); var kind := if k < |fates| then fates[k].kind else Proceeds;
      || todo[k].name !in files || kind == CrashBefore || kind == CrashAfter
      || (kind == SendFails && files[todo[k].name].private && |files[todo[k].name].bytes| <= limits.maxEntryBytes
          && c.decode(files[todo[k].name].bytes).Some?)
    decreases |todo|
  {
    var later := if fates == [] then [] else fates[1..];
    if FirstStop(c, limits, files, todo, fates) > 0 {
      StopsExactly(c, limits, files, todo[1..], later);
    }
  }
}
