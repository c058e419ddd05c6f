// What deduplication keeps, drops and leaves unchanged.
module ConflictTheorems {
  import opened Ordering
  import opened ContextTypes
  import opened ConflictResolver

  // ----- One candidate per revision -------------------------------------------------

  ghost predicate OnePerRevision(s: seq<Prepared>) {
    forall i, j :: 0 <= i < j < |s| ==> s[i].RevisionId() != s[j].RevisionId()
  }

  lemma {:induction false} FirstSeenFacts(s: seq<Prepared>, seen: set<Id>)
    ensures forall p :: p in FirstSeen(s, seen) ==> p in s && p.RevisionId() !in seen
    ensures OnePerRevision(FirstSeen(s, seen))
    decreases |s|
  {
    if s != [] {
      if s[0].RevisionId() in seen {
        FirstSeenFacts(s[1..], seen);
      } else {
        FirstSeenFacts(s[1..], seen + {s[0].RevisionId()});
        var r := FirstSeen(s, seen);
        forall i, j | 0 <= i < j < |r| ensures r[i].RevisionId() != r[j].RevisionId() {
          assert r[j] in r[1..];
        }
      }
    }
  }

  // The first of a revision in a sorted list comes before every other of it.
  lemma {:induction false} FirstSeenKeepsBest(s: seq<Prepared>, seen: set<Id>, p: Prepared) returns (q: Prepared)
    requires SortedBy(ByRevision, s) && p in s && p.RevisionId() !in seen
    ensures q in FirstSeen(s, seen) && q.RevisionId() == p.RevisionId()
    ensures !IsVector(p) ==> !IsVector(q)
    decreases |s|
  {
    if s[0].RevisionId() == p.RevisionId() {
      q := s[0];
      assert p == s[0] || p in s[1..];
    } else {
      assert p in s[1..];
      q := FirstSeenKeepsBest(s[1..], if s[0].RevisionId() in seen then seen else seen + {s[0].RevisionId()}, p);
    }
  }

  lemma ByRevisionOrders()
    ensures Preorder(ByRevision)
  {
  }

  lemma OrderedFacts(candidates: seq<Prepared>, sets: seq<ConflictSet>)
    ensures SortedBy(ByRevision, Ordered(candidates, sets))
    ensures forall p :: p in Ordered(candidates, sets) ==> p.group == GroupOf(sets, p.RevisionId())
    ensures forall p :: p in Ordered(candidates, sets) <==> p in Map(Annotate(sets), candidates)
  {
    ByRevisionOrders();
    SortSorts(ByRevision, Map(Annotate(sets), candidates));
    SameMembers(Map(Annotate(sets), candidates), Ordered(candidates, sets));
  }

  lemma UniqueFacts(candidates: seq<Prepared>, sets: seq<ConflictSet>)
    ensures OnePerRevision(Unique(candidates, sets)) && SortedBy(ByRevision, Unique(candidates, sets))
    ensures forall p :: p in Unique(candidates, sets) ==> p.group == GroupOf(sets, p.RevisionId())
  {
    OrderedFacts(candidates, sets);
    FirstSeenFacts(Ordered(candidates, sets), {});
    FirstSeenSorted(Ordered(candidates, sets), {});
  }

  lemma {:induction false} FirstSeenSorted(s: seq<Prepared>, seen: set<Id>)
    requires SortedBy(ByRevision, s)
    ensures SortedBy(ByRevision, FirstSeen(s, seen))
    decreases |s|
  {
    if s != [] {
      var next := if s[0].RevisionId() in seen then seen else seen + {s[0].RevisionId()};
      FirstSeenSorted(s[1..], next);
      FirstSeenFacts(s[1..], next);
      var r := FirstSeen(s[1..], next);
      forall j | 0 <= j < |r| ensures ByRevision(s[0], r[j]) { assert r[j] in s[1..]; }
    }
  }

  // Every revision keeps exactly one candidate, not a vector one if it has another.
  lemma OneCandidatePerRevision(candidates: seq<Prepared>, sets: seq<ConflictSet>, c: Prepared) returns (q: Prepared)
    requires c in candidates
    ensures OnePerRevision(Unique(candidates, sets))
    ensures q in Unique(candidates, sets) && q.RevisionId() == c.RevisionId()
    ensures !IsVector(c) ==> !IsVector(q)
  {
    UniqueFacts(candidates, sets);
    OrderedFacts(candidates, sets);
    MapHas(Annotate(sets), candidates, c);
    q := FirstSeenKeepsBest(Ordered(candidates, sets), {}, Annotate(sets)(c));
  }

  // ----- What is dropped ------------------------------------------------------------

  lemma AscendingSorts(a: seq<Id>, b: seq<Id>)
    ensures Sort(Ascending, a) == Sort(Ascending, b) <==> multiset(a) == multiset(b)
  {
    if multiset(a) == multiset(b) { SortForgetsOrder(Ascending, a, b); }
  }

  // A retained core with the same sources, or a retained projection that has this
  // memory among its sources.
  ghost predicate CoreWithSameSources(kept: seq<Prepared>, p: Prepared) {
    exists c :: c in kept && IsCore(c) && multiset(c.Sources()) == multiset(p.Sources())
  }

  ghost predicate AbstractedBy(kept: seq<Prepared>, p: Prepared) {
    exists q :: q in kept && Abstracts(q) && p.RevisionId() in q.Sources()
  }

  ghost predicate Replaced(kept: seq<Prepared>, p: Prepared) {
    p.group.None? && ((IsTopic(p) && CoreWithSameSources(kept, p)) || (p.candidate.MemoryCandidate? && AbstractedBy(kept, p)))
  }

  lemma CoresInside(s: seq<Prepared>, p: Prepared)
    ensures LineageKey(p) in CoreLineages(s) <==> CoreWithSameSources(s, p)
  {
    if LineageKey(p) in CoreLineages(s) {
      var c :| c in s && IsCore(c) && LineageKey(c) == LineageKey(p);
      AscendingSorts(c.Sources(), p.Sources());
    }
    if CoreWithSameSources(s, p) {
      var c :| c in s && IsCore(c) && multiset(c.Sources()) == multiset(p.Sources());
      AscendingSorts(c.Sources(), p.Sources());
      assert LineageKey(c) in CoreLineages(s);
    }
  }

  // Neither pass drops a projection that the other pass relies on.
  lemma PassesKeepProjections(unique: seq<Prepared>)
    ensures forall p :: p in WithoutMemories(WithoutTopics(unique)) ==> p in WithoutTopics(unique) && p in unique
    ensures forall p :: p in unique && IsCore(p) ==> p in WithoutMemories(WithoutTopics(unique))
    ensures forall p :: p in WithoutTopics(unique) && p.candidate.ProjectionCandidate? ==> p in WithoutMemories(WithoutTopics(unique))
  {
  }

  lemma SameCores(unique: seq<Prepared>)
    ensures CoreLineages(WithoutMemories(WithoutTopics(unique))) == CoreLineages(unique)
    ensures AbstractedSources(WithoutMemories(WithoutTopics(unique))) == AbstractedSources(WithoutTopics(unique))
  {
    PassesKeepProjections(unique);
  }

  lemma SourcesInside(s: seq<Prepared>, p: Prepared)
    ensures p.RevisionId() in AbstractedSources(s) <==> AbstractedBy(s, p)
  {
  }

  // A unique candidate is dropped exactly when it belongs to no conflict and a
  // retained candidate stands for it: a topic by a core with the same sources, a
  // memory by a projection (not a relation) that has it as a source.
  lemma DroppedExactlyWhenReplaced(candidates: seq<Prepared>, sets: seq<ConflictSet>, p: Prepared)
    requires p in Unique(candidates, sets)
    ensures p !in Resolve(candidates, sets).candidates <==> Replaced(Resolve(candidates, sets).candidates, p)
  {
    var unique := Unique(candidates, sets);
    var kept := WithoutTopics(unique);
    var last := WithoutMemories(kept);
    SameCores(unique);
    CoresInside(last, p);
    SourcesInside(last, p);
    assert p in kept <==> !RedundantTopic(CoreLineages(unique))(p);
    assert p in last <==> p in kept && !RedundantMemory(AbstractedSources(kept))(p);
  }

  predicate StandsFor(q: Prepared, p: Prepared) {
    && q.candidate.ProjectionCandidate? && q.candidate.projection.payload.Some?
    && match p.candidate
       case MemoryCandidate(_, _, _, _, m, _) =>
         !q.candidate.projection.payload.value.RelationPayload? && m.revisionId in q.candidate.projection.sources
       case ProjectionCandidate(_, _, _, _, _, t, _) =>
         t.payload == Some(TopicPayload) && q.candidate.projection.payload.value.CorePayload?
         && multiset(q.candidate.projection.sources) == multiset(t.sources)
  }

  lemma OneStandsFor(q: Prepared, p: Prepared)
    ensures StandsFor(q, p) <==>
      || (IsTopic(p) && IsCore(q) && multiset(q.Sources()) == multiset(p.Sources()))
      || (p.candidate.MemoryCandidate? && Abstracts(q) && p.RevisionId() in q.Sources())
  {
  }

  lemma ReplacedInFields(kept: seq<Prepared>, p: Prepared)
    ensures Replaced(kept, p) <==> p.group.None? && exists q :: q in kept && StandsFor(q, p)
  {
    forall q ensures StandsFor(q, p) <==>
      || (IsTopic(p) && IsCore(q) && multiset(q.Sources()) == multiset(p.Sources()))
      || (p.candidate.MemoryCandidate? && Abstracts(q) && p.RevisionId() in q.Sources())
    {
      OneStandsFor(q, p);
    }
  }

  // The same in payloads: a topic beside a retained core with the same sources, and a
  // memory that a retained topic, scenario, procedure or core has as a source, go when
  // they are in no conflict; nothing else does.
  lemma DroppedInFields(candidates: seq<Prepared>, sets: seq<ConflictSet>, p: Prepared)
    requires p in Unique(candidates, sets)
    ensures p !in Resolve(candidates, sets).candidates <==>
      && (forall c :: c in sets ==> p.RevisionId() !in c.members)
      && (exists q :: q in Resolve(candidates, sets).candidates && StandsFor(q, p))
  {
    DroppedExactlyWhenReplaced(candidates, sets, p);
    UniqueFacts(candidates, sets);
    GroupIsOfASet(sets, p.RevisionId());
    ReplacedInFields(Resolve(candidates, sets).candidates, p);
  }

  // Of one revision a semantic_vector candidate is kept only if there is no other.
  lemma VectorsYield(candidates: seq<Prepared>, sets: seq<ConflictSet>, c: Prepared, q: Prepared)
    requires c in candidates && c.Lane() != SemanticVector
    requires q in Unique(candidates, sets) && q.RevisionId() == c.RevisionId()
    ensures q.Lane() != SemanticVector
  {
    var k := OneCandidatePerRevision(candidates, sets, c);
    var s := Unique(candidates, sets);
    var i :| 0 <= i < |s| && s[i] == q;
    var j :| 0 <= j < |s| && s[j] == k;
    assert i == j;
  }

  // ----- Conflict sets ----------------------------------------------------------------

  lemma {:induction false} GroupIsOfASet(sets: seq<ConflictSet>, revision: Id)
    ensures GroupOf(sets, revision).Some? <==> exists c :: c in sets && revision in c.members
    ensures GroupOf(sets, revision).Some? ==>
      exists c :: c in sets && revision in c.members && c.group == GroupOf(sets, revision).value
    decreases |sets|
  {
    if sets != [] {
      var front, last := sets[..|sets| - 1], sets[|sets| - 1];
      GroupIsOfASet(front, revision);
      assert forall c :: c in sets <==> c in front || c == last;
    }
  }

  // A set is kept exactly when one of its members is; so the group that a retained
  // candidate names is always among the kept sets.
  lemma ConflictSetsResolve(candidates: seq<Prepared>, sets: seq<ConflictSet>, p: Prepared)
    requires p in Resolve(candidates, sets).candidates
    ensures forall c :: c in sets && p.RevisionId() in c.members ==> c in Resolve(candidates, sets).conflictSets
    ensures p.group.Some? ==> exists c ::
      c in Resolve(candidates, sets).conflictSets && c.group == p.group.value && p.RevisionId() in c.members
    ensures p.group.None? ==> forall c :: c in sets ==> p.RevisionId() !in c.members
  {
    var r := Resolve(candidates, sets);
    UniqueFacts(candidates, sets);
    PassesKeepProjections(Unique(candidates, sets));
    assert p.RevisionId() in RevisionIds(r.candidates);
    forall c | c in sets && p.RevisionId() in c.members ensures c in r.conflictSets {
      assert p.RevisionId() in c.members * RevisionIds(r.candidates);
      assert RetainedBy(RevisionIds(r.candidates))(c);
    }
    GroupIsOfASet(sets, p.RevisionId());
  }

  // ----- Doing it again -----------------------------------------------------------------

  lemma {:induction false} FirstSeenAll(s: seq<Prepared>, seen: set<Id>)
    requires OnePerRevision(s) && forall p :: p in s ==> p.RevisionId() !in seen
    ensures FirstSeen(s, seen) == s && SeenAgain(s, seen) == []
    decreases |s|
  {
    if s != [] {
      forall p | p in s[1..] ensures p.RevisionId() !in seen + {s[0].RevisionId()} {
        var j :| 0 <= j < |s[1..]| && s[1..][j] == p;
        assert s[j + 1] == p;
      }
      FirstSeenAll(s[1..], seen + {s[0].RevisionId()});
    }
  }

  lemma {:induction false} FilterOnePerRevision(f: Prepared -> bool, s: seq<Prepared>)
    requires OnePerRevision(s)
    ensures OnePerRevision(Filter(f, s))
    decreases |s|
  {
    if s != [] {
      FilterOnePerRevision(f, s[1..]);
      forall p | p in Filter(f, s[1..]) ensures p.RevisionId() != s[0].RevisionId() {
        var j :| 0 <= j < |s[1..]| && s[1..][j] == p;
        assert s[j + 1] == p;
      }
    }
  }

  // What a result looks like to a second pass.
  ghost predicate Settled(s: seq<Prepared>, sets: seq<ConflictSet>) {
    && OnePerRevision(s) && SortedBy(ByRevision, s)
    && (forall p :: p in s ==> p.group == GroupOf(sets, p.RevisionId()))
    && (forall p :: p in s ==> !RedundantTopic(CoreLineages(s))(p))
    && (forall p :: p in s ==> !RedundantMemory(AbstractedSources(s))(p))
  }

  lemma ResultIsSettled(candidates: seq<Prepared>, sets: seq<ConflictSet>)
    ensures Settled(Resolve(candidates, sets).candidates, sets)
  {
    var unique := Unique(candidates, sets);
    var kept := WithoutTopics(unique);
    UniqueFacts(candidates, sets);
    FilterOnePerRevision(Not(RedundantTopic(CoreLineages(unique))), unique);
    FilterOnePerRevision(Not(RedundantMemory(AbstractedSources(kept))), kept);
    FilterSorted(ByRevision, Not(RedundantTopic(CoreLineages(unique))), unique);
    FilterSorted(ByRevision, Not(RedundantMemory(AbstractedSources(kept))), kept);
    SameCores(unique);
    SettledParts(unique, WithoutMemories(kept));
  }

  lemma SettledParts(unique: seq<Prepared>, last: seq<Prepared>)
    requires last == WithoutMemories(WithoutTopics(unique))
    requires CoreLineages(last) == CoreLineages(unique)
    requires AbstractedSources(last) == AbstractedSources(WithoutTopics(unique))
    ensures forall p :: p in last ==> !RedundantTopic(CoreLineages(last))(p) && !RedundantMemory(AbstractedSources(last))(p) && p in unique
  {
    forall p | p in last ensures !RedundantTopic(CoreLineages(last))(p) && !RedundantMemory(AbstractedSources(last))(p) && p in unique {
      assert p in WithoutTopics(unique);
    }
  }

  lemma SettledFixed(s: seq<Prepared>, sets: seq<ConflictSet>)
    requires Settled(s, sets)
    ensures Resolve(s, sets).candidates == s && Resolve(s, sets).exclusions == []
  {
    assert Map(Annotate(sets), s) == s;
    SortFixed(ByRevision, s);
    assert Ordered(s, sets) == s;
    FirstSeenAll(s, {});
    FilterAll(Not(RedundantTopic(CoreLineages(s))), s);
    FilterNone(RedundantTopic(CoreLineages(s)), s);
    FilterAll(Not(RedundantMemory(AbstractedSources(s))), s);
    FilterNone(RedundantMemory(AbstractedSources(s)), s);
    assert Dropped(s, s, s) == [];
  }

  lemma {:induction false} GroupOfRetained(sets: seq<ConflictSet>, revisions: set<Id>, r: Id)
    requires r in revisions
    ensures GroupOf(Filter(RetainedBy(revisions), sets), r) == GroupOf(sets, r)
    decreases |sets|
  {
    if sets != [] {
      var front, last := sets[..|sets| - 1], sets[|sets| - 1];
      assert sets == front + [last];
      FilterSnoc(RetainedBy(revisions), front, last);
      GroupOfRetained(front, revisions, r);
      var kept := Filter(RetainedBy(revisions), front);
      if r in last.members {
        assert r in last.members * revisions;
        assert Filter(RetainedBy(revisions), sets) == kept + [last];
      } else if RetainedBy(revisions)(last) {
        assert Filter(RetainedBy(revisions), sets) == kept + [last];
        assert (kept + [last])[..|kept|] == kept;
      } else {
        assert Filter(RetainedBy(revisions), sets) == kept;
      }
    }
  }

  // Resolving the result again changes nothing, with all conflict sets or with the
  // retained ones.
  lemma ResolveIdempotent(candidates: seq<Prepared>, sets: seq<ConflictSet>)
    ensures var r := Resolve(candidates, sets);
      && Resolve(r.candidates, sets) == Resolved(r.candidates, [], r.conflictSets)
      && Resolve(r.candidates, r.conflictSets) == Resolved(r.candidates, [], r.conflictSets)
  {
    var r := Resolve(candidates, sets);
    var revisions := RevisionIds(r.candidates);
    ResultIsSettled(candidates, sets);
    SettledFixed(r.candidates, sets);
    forall p | p in r.candidates ensures p.group == GroupOf(r.conflictSets, p.RevisionId()) {
      GroupOfRetained(sets, revisions, p.RevisionId());
    }
    SettledFixed(r.candidates, r.conflictSets);
    FilterAll(RetainedBy(revisions), r.conflictSets);
  }

  // ----- Nothing is lost ------------------------------------------------------------------

  // Who a decision is about.
  datatype Slot = Slot(memoryId: Id, revisionId: Id, lane: Lane)

  function SlotOfCandidate(c: Candidate): Slot { Slot(c.MemoryId(), c.RevisionId(), c.lane) }

  function SlotOfPrepared(p: Prepared): Slot { SlotOfCandidate(p.candidate) }

  function SlotOfExclusion(e: Exclusion): Slot { Slot(e.memoryId, e.revisionId, e.lane) }

  lemma {:induction false} SeenSplits(s: seq<Prepared>, seen: set<Id>)
    ensures multiset(FirstSeen(s, seen)) + multiset(SeenAgain(s, seen)) == multiset(s)
    decreases |s|
  {
    if s != [] {
      SeenSplits(s[1..], if s[0].RevisionId() in seen then seen else seen + {s[0].RevisionId()});
      assert s == [s[0]] + s[1..];
    }
  }

  // Mapping a split sequence splits the image.
  lemma MapSplits<A, B>(f: A -> B, s: seq<A>, a: seq<A>, b: seq<A>)
    requires multiset(s) == multiset(a) + multiset(b)
    ensures multiset(Map(f, s)) == multiset(Map(f, a)) + multiset(Map(f, b))
  {
    assert multiset(a + b) == multiset(s);
    MapMultiset(f, s, a + b);
    assert Map(f, a + b) == Map(f, a) + Map(f, b);
  }

  lemma ExcludedSlots(reason: Reason, s: seq<Prepared>)
    ensures Map(SlotOfExclusion, Map(Excluding(reason), s)) == Map(SlotOfPrepared, s)
  {
  }

  lemma FilterBothWays(f: Prepared -> bool, s: seq<Prepared>)
    ensures multiset(Map(SlotOfPrepared, s)) == multiset(Map(SlotOfPrepared, Filter(Not(f), s))) + multiset(Map(SlotOfPrepared, Filter(f, s)))
  {
    FilterSplits(Not(f), f, s);
    MapSplits(SlotOfPrepared, s, Filter(Not(f), s), Filter(f, s));
  }

  lemma SlotsOfThree(a: seq<Exclusion>, b: seq<Exclusion>, c: seq<Exclusion>)
    ensures multiset(Map(SlotOfExclusion, a + b + c))
         == multiset(Map(SlotOfExclusion, a)) + multiset(Map(SlotOfExclusion, b)) + multiset(Map(SlotOfExclusion, c))
  {
    MapAppend(SlotOfExclusion, a + b, c);
    MapAppend(SlotOfExclusion, a, b);
  }

  lemma DroppedSlots(ordered: seq<Prepared>, unique: seq<Prepared>, kept: seq<Prepared>)
    ensures multiset(Map(SlotOfExclusion, Dropped(ordered, unique, kept)))
         == multiset(Map(SlotOfPrepared, SeenAgain(ordered, {})))
          + multiset(Map(SlotOfPrepared, Filter(RedundantTopic(CoreLineages(unique)), unique)))
          + multiset(Map(SlotOfPrepared, Filter(RedundantMemory(AbstractedSources(kept)), kept)))
  {
    var a, b, c := SeenAgain(ordered, {}), Filter(RedundantTopic(CoreLineages(unique)), unique), Filter(RedundantMemory(AbstractedSources(kept)), kept);
    ExcludedSlots(DuplicateCandidate, a);
    ExcludedSlots(DedupedByHigherAbstraction, b);
    ExcludedSlots(DedupedByHigherAbstraction, c);
    SlotsOfThree(Map(Excluding(DuplicateCandidate), a), Map(Excluding(DedupedByHigherAbstraction), b), Map(Excluding(DedupedByHigherAbstraction), c));
  }

  // Exclusions for a higher abstraction come before duplicates, and both go by revision.
  lemma ExclusionsInOrder(candidates: seq<Prepared>, sets: seq<ConflictSet>, j: nat, k: nat)
    requires j < k < |Resolve(candidates, sets).exclusions|
    ensures var a, b := Resolve(candidates, sets).exclusions[j], Resolve(candidates, sets).exclusions[k];
      && a.reason in {DedupedByHigherAbstraction, DuplicateCandidate} && b.reason in {DedupedByHigherAbstraction, DuplicateCandidate}
      && (b.reason == DedupedByHigherAbstraction ==> a.reason == DedupedByHigherAbstraction)
      && (a.reason == b.reason ==> a.revisionId <= b.revisionId)
  {
    var ordered, unique := Ordered(candidates, sets), Unique(candidates, sets);
    var dropped := Dropped(ordered, unique, WithoutTopics(unique));
    SortedDropped(dropped, j, k);
    DroppedReasons(ordered, unique, WithoutTopics(unique), Sort(ByReasonRevision, dropped)[j]);
    DroppedReasons(ordered, unique, WithoutTopics(unique), Sort(ByReasonRevision, dropped)[k]);
  }

  lemma SortedDropped(dropped: seq<Exclusion>, j: nat, k: nat)
    requires j < k < |Sort(ByReasonRevision, dropped)|
    ensures var s := Sort(ByReasonRevision, dropped); ByReasonRevision(s[j], s[k]) && s[j] in dropped && s[k] in dropped
  {
    ByReasonRevisionOrders();
    SortSorts(ByReasonRevision, dropped);
    SameMembers(dropped, Sort(ByReasonRevision, dropped));
  }

  lemma DroppedReasons(ordered: seq<Prepared>, unique: seq<Prepared>, kept: seq<Prepared>, x: Exclusion)
    requires x in Dropped(ordered, unique, kept)
    ensures x.reason in {DedupedByHigherAbstraction, DuplicateCandidate}
  {
  }

  lemma ByReasonRevisionOrders()
    ensures Preorder(ByReasonRevision)
  {
  }

  // Every candidate is kept or excluded, once.
  lemma ResolveConserves(candidates: seq<Prepared>, sets: seq<ConflictSet>)
    ensures var r := Resolve(candidates, sets);
      multiset(Map(SlotOfPrepared, candidates)) == multiset(Map(SlotOfPrepared, r.candidates)) + multiset(Map(SlotOfExclusion, r.exclusions))
  {
    var ordered, unique := Ordered(candidates, sets), Unique(candidates, sets);
    var kept := WithoutTopics(unique);
    assert Map(SlotOfPrepared, Map(Annotate(sets), candidates)) == Map(SlotOfPrepared, candidates);
    MapMultiset(SlotOfPrepared, Map(Annotate(sets), candidates), ordered);
    SeenSplits(ordered, {});
    MapSplits(SlotOfPrepared, ordered, unique, SeenAgain(ordered, {}));
    FilterBothWays(RedundantTopic(CoreLineages(unique)), unique);
    FilterBothWays(RedundantMemory(AbstractedSources(kept)), kept);
    DroppedSlots(ordered, unique, kept);
    MapMultiset(SlotOfExclusion, Dropped(ordered, unique, kept), Resolve(candidates, sets).exclusions);
  }
}
