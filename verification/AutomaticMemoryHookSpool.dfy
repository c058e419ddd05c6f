// The spool object, proved to do what HookSpool says of it.
module AutomaticMemoryHookSpool {
  import Ordering
  import Capacity = SpoolCapacity
  import opened HookSpool

  class Spool {
    const codec: Codec
    const limits: Limits

    // The directory, the quarantine below it, and what has left both.
    var files: Directory
    var quarantine: Directory
    ghost var delivered: seq<Request>
    ghost var buried: set<File>

    ghost function State(): Disk
      reads this
    {
      Disk(files, quarantine, delivered, buried)
    }

    constructor (codec: Codec, limits: Limits, files: Directory, quarantine: Directory)
      ensures this.codec == codec && this.limits == limits
      ensures State() == Disk(files, quarantine, [], {})
    {
      this.codec, this.limits := codec, limits;
      this.files, this.quarantine := files, quarantine;
      delivered, buried := [], {};
    }

    // readdir, then a sort by modification time and name.
    static method Entries(directory: Directory) returns (l: seq<Entry>)
      ensures l == Listing(directory)
    {
      l := [];
      var rest := directory.Keys;
      while rest != {}
        invariant rest <= directory.Keys && Ordering.Distinct(l)
        invariant forall e :: e in l <==> e.name in directory.Keys - rest && directory[e.name].mtime == e.mtime
        decreases |rest|
      {
        var n :| n in rest;
        rest := rest - {n};
        l := l + [Entry(directory[n].mtime, n)];
      }
      SortLists(directory, l);
      l := Ordering.Sort(Older, l);
      ListingUnique(directory, l);
    }

    method PendingCount() returns (n: nat)
      ensures n == |files|
    {
      var l := Entries(files);
      ListingNames(files);
      n := |l|;
    }

    // The reduce over the entries' sizes.
    static method SumOfSizes(directory: Directory, l: seq<Entry>) returns (total: nat)
      requires NamesDistinct(l) && Names(l) == directory.Keys
      ensures total == TotalBytes(directory)
    {
      total := 0;
      var i := 0;
      assert Names(l[..0]) == {};
      while i < |l|
        invariant 0 <= i <= |l|
        invariant Names(l[..i]) <= directory.Keys
        invariant total == Capacity.Bytes(Sizes(directory), Names(l[..i]))
      {
        assert l[i].name in Names(l);
        SumStep(directory, l, i);
        total := total + |directory[l[i].name].bytes|;
        i := i + 1;
      }
      assert l[..i] == l && Sizes(directory).Keys == directory.Keys;
    }

    // What both checks of enqueue look at.
    static method Measure(directory: Directory) returns (count: nat, bytes: nat)
      ensures count == |directory| && bytes == TotalBytes(directory)
    {
      var l := Entries(directory);
      ListingNames(directory);
      count := |l|;
      bytes := SumOfSizes(directory, l);
    }

    // `meanwhile` is what other processes add between the two counts.
    method Enqueue(request: Request, now: int, meanwhile: Directory) returns (outcome: Outcome)
      requires meanwhile.Keys !! (files.Keys + {codec.digest(request.key)})
      modifies `files
      ensures (outcome, files) == Enqueued(limits, old(files), meanwhile, codec.digest(request.key),
                                           File(now, codec.encode(request), true))
    {
      var bytes := codec.encode(request);
      if |bytes| > limits.maxEntryBytes {
        return TooLarge;
      }
      var name := codec.digest(request.key);
      if name in files {
        if files[name].bytes != bytes {
          return Conflict;
        }
        return Same;
      }
      var before, beforeBytes := Measure(files);
      if before >= limits.maxEntries || beforeBytes + |bytes| > limits.maxBytes {
        return Full;
      }
      outcome := StoreAndRecheck(name, File(now, bytes, true), meanwhile);
    }

    // Exclusive create and write, then the second count; too much is undone.
    method StoreAndRecheck(name: nat, file: File, meanwhile: Directory) returns (outcome: Outcome)
      requires name !in files && name !in meanwhile
      modifies `files
      ensures var after := (old(files) + meanwhile)[name := file];
        (outcome, files) ==
          if |after| > limits.maxEntries || TotalBytes(after) > limits.maxBytes
          then (Full, old(files) + meanwhile) else (Stored, after)
    {
      files := (files + meanwhile)[name := file];
      var after, afterBytes := Measure(files);
      if after > limits.maxEntries || afterBytes > limits.maxBytes {
        files := files - {name};
        assert files == old(files) + meanwhile;
        return Full;
      }
      return Stored;
    }

    method Read(name: nat) returns (request: Option<Request>)
      requires name in files
      ensures request == Readable(codec, limits, files[name])
    {
      var file := files[name];
      if !file.private || |file.bytes| > limits.maxEntryBytes {
        return None;
      }
      return codec.decode(file.bytes);
    }

    // The entry moves to the quarantine; then the oldest go until the limit is met.
    // With `crash` the process dies right after the rename.
    method QuarantineEntry(name: nat, uuid: nat, crash: bool)
      requires name in files
      modifies `files, `quarantine, `buried
      ensures State() == if crash then HookSpool.Bury(old(State()), name, uuid) else HookSpool.Buried(old(State()), name, uuid)
    {
      buried := buried + {files[name]};
      quarantine := quarantine[uuid := files[name]];
      files := files - {name};
      if crash {
        return;
      }
      Trim();
    }

    method Trim()
      modifies `quarantine
      ensures quarantine == Trimmed(old(quarantine))
    {
      var invalid := Entries(quarantine);
      UnlinkOldest(invalid);
    }

    method UnlinkOldest(all: seq<Entry>)
      modifies `quarantine
      ensures quarantine == TrimmedBy(old(quarantine), all)
    {
      var invalid := all;
      ghost var i := 0;
      while |invalid| > QUARANTINE_LIMIT
        invariant 0 <= i <= |all| && invalid == all[i..]
        invariant i == 0 || |all| - i >= QUARANTINE_LIMIT
        invariant quarantine == old(quarantine) - Names(all[..i])
        decreases |invalid|
      {
        NamesSnoc(all, i);
        quarantine := quarantine - {invalid[0].name};
        invalid := invalid[1..];
        i := i + 1;
      }
    }

    // One entry of a flush: delivered and unlinked, or quarantined, or the flush
    // stops there.
    method FlushEntry(name: nat, fate: Fate) returns (acknowledged: bool, stopped: bool)
      modifies `files, `quarantine, `buried, `delivered
      ensures stopped == Stops(codec, limits, old(files), name, fate)
      ensures stopped ==> State() == Stopped(codec, limits, old(State()), name, fate) && !acknowledged
      ensures !stopped ==>
        && State() == Handled(codec, limits, old(State()), name, fate)
        && acknowledged == Readable(codec, limits, old(files)[name]).Some?
    {
      if name !in files || fate.kind == CrashBefore {
        return false, true;
      }
      var request := Read(name);
      if request.None? {
        QuarantineEntry(name, fate.uuid, fate.kind == CrashAfter);
        return false, fate.kind == CrashAfter;
      }
      if fate.kind == SendFails {
        return false, true;
      }
      delivered := delivered + [request.value];
      if fate.kind == CrashAfter {
        return false, true;
      }
      files := files - {name};
      return true, false;
    }

    method Flush(limit: int, fates: seq<Fate>) returns (acknowledged: nat, completed: bool)
      modifies `files, `quarantine, `buried, `delivered
      ensures Flushed(State(), acknowledged, completed) == HookSpool.Flush(codec, limits, old(State()), limit, fates)
    {
      var l := Entries(files);
      var todo := l[..if limit < 0 then 0 else if limit < |l| then limit else |l|];
      ghost var d := State();
      var left := fates;
      acknowledged := 0;
      while todo != []
        invariant AddAcknowledged(FlushFrom(codec, limits, State(), todo, left), acknowledged)
               == HookSpool.Flush(codec, limits, d, limit, fates)
        decreases |todo|
      {
        var sent, stopped := FlushEntry(todo[0].name, FateAt(left, 0));
        if stopped {
          return acknowledged, false;
        }
        acknowledged := acknowledged + if sent then 1 else 0;
        todo := todo[1..];
        left := if left == [] then [] else left[1..];
      }
      completed := true;
    }
  }

  function AddAcknowledged(f: Flushed, n: nat): Flushed {
    f.(acknowledged := f.acknowledged + n)
  }

  lemma NamesSnoc(l: seq<Entry>, i: nat)
    requires i < |l|
    ensures Names(l[..i + 1]) == Names(l[..i]) + {l[i].name}
  {
    assert l[..i + 1] == l[..i] + [l[i]];
  }

  lemma SumStep(directory: Directory, l: seq<Entry>, i: nat)
    requires i < |l| && NamesDistinct(l) && Names(l[..i]) <= directory.Keys && l[i].name in directory
    ensures Names(l[..i + 1]) <= directory.Keys
    ensures Capacity.Bytes(Sizes(directory), Names(l[..i + 1]))
         == Capacity.Bytes(Sizes(directory), Names(l[..i])) + |directory[l[i].name].bytes|
  {
    NamesSnoc(l, i);
    assert l[i].name !in Names(l[..i]) by {
      forall e | e in l[..i] ensures e.name != l[i].name { }
    }
    Capacity.BytesWithout(Sizes(directory), Names(l[..i + 1]), l[i].name);
    assert Names(l[..i + 1]) - {l[i].name} == Names(l[..i]);
  }
}
