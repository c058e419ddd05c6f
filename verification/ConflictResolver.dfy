// Conflict annotation and deduplication of the eligible candidates.
module ConflictResolver {
  import opened Ordering
  import opened ContextTypes

  datatype ConflictSet = ConflictSet(group: Id, members: set<Id>)

  // Of several sets with the same member the last one names its group.
  function GroupOf(sets: seq<ConflictSet>, revision: Id): Option<Id> {
    if sets == [] then None
    else if revision in sets[|sets| - 1].members then Some(sets[|sets| - 1].group)
    else GroupOf(sets[..|sets| - 1], revision)
  }

  function Annotate(sets: seq<ConflictSet>): Prepared -> Prepared {
    (p: Prepared) => p.(group := GroupOf(sets, p.RevisionId()))
  }

  predicate IsVector(p: Prepared) {
    p.Lane() == SemanticVector
  }

  // By revision, and a vector candidate after the others of its revision.
  predicate ByRevision(a: Prepared, b: Prepared) {
    a.RevisionId() < b.RevisionId() || (a.RevisionId() == b.RevisionId() && (!IsVector(a) || IsVector(b)))
  }

  function Excluding(reason: Reason): Prepared -> Exclusion {
    (p: Prepared) => Exclude(p.candidate, reason)
  }

  // ----- One candidate per revision -------------------------------------------------

  function FirstSeen(s: seq<Prepared>, seen: set<Id>): (r: seq<Prepared>)
    decreases |s|
  {
    if s == [] then []
    else if s[0].RevisionId() in seen then FirstSeen(s[1..], seen)
    else [s[0]] + FirstSeen(s[1..], seen + {s[0].RevisionId()})
  }

  function SeenAgain(s: seq<Prepared>, seen: set<Id>): (r: seq<Prepared>)
    decreases |s|
  {
    if s == [] then []
    else if s[0].RevisionId() in seen then [s[0]] + SeenAgain(s[1..], seen)
    else SeenAgain(s[1..], seen + {s[0].RevisionId()})
  }

  // ----- Higher abstractions --------------------------------------------------------

  predicate Ascending(a: Id, b: Id) { a <= b }

  // The digest of the sorted sources; digests are equal exactly when these are.
  function LineageKey(p: Prepared): seq<Id> {
    Sort(Ascending, p.Sources())
  }

  predicate IsCore(p: Prepared) {
    p.PayloadOf().Some? && p.PayloadOf().value.CorePayload?
  }

  predicate IsTopic(p: Prepared) {
    p.PayloadOf().Some? && p.PayloadOf().value.TopicPayload?
  }

  function CoreLineages(s: seq<Prepared>): set<seq<Id>> {
    set p | p in s && IsCore(p) :: LineageKey(p)
  }

  function RedundantTopic(cores: set<seq<Id>>): Prepared -> bool {
    (p: Prepared) => p.group.None? && IsTopic(p) && LineageKey(p) in cores
  }

  function Not(f: Prepared -> bool): Prepared -> bool {
    (p: Prepared) => !f(p)
  }

  // A projection other than a relation stands for its sources.
  predicate Abstracts(p: Prepared) {
    p.PayloadOf().Some? && !p.PayloadOf().value.RelationPayload?
  }

  function AbstractedSources(s: seq<Prepared>): set<Id> {
    set p, r | p in s && Abstracts(p) && r in p.Sources() :: r
  }

  function RedundantMemory(sources: set<Id>): Prepared -> bool {
    (p: Prepared) => p.candidate.MemoryCandidate? && p.group.None? && p.RevisionId() in sources
  }

  function RevisionIds(s: seq<Prepared>): set<Id> {
    set p | p in s :: p.RevisionId()
  }

  predicate ByReasonRevision(a: Exclusion, b: Exclusion) {
    ReasonName(a.reason) < ReasonName(b.reason) || (ReasonName(a.reason) == ReasonName(b.reason) && a.revisionId <= b.revisionId)
  }

  predicate Retained(revisions: set<Id>, set_: ConflictSet) {
    set_.members * revisions != {}
  }

  function RetainedBy(revisions: set<Id>): ConflictSet -> bool {
    (c: ConflictSet) => Retained(revisions, c)
  }

  datatype Resolved = Resolved(candidates: seq<Prepared>, exclusions: seq<Exclusion>, conflictSets: seq<ConflictSet>)

  function Ordered(candidates: seq<Prepared>, sets: seq<ConflictSet>): seq<Prepared> {
    Sort(ByRevision, Map(Annotate(sets), candidates))
  }

  function Unique(candidates: seq<Prepared>, sets: seq<ConflictSet>): seq<Prepared> {
    FirstSeen(Ordered(candidates, sets), {})
  }

  function WithoutTopics(unique: seq<Prepared>): seq<Prepared> {
    Filter(Not(RedundantTopic(CoreLineages(unique))), unique)
  }

  function WithoutMemories(s: seq<Prepared>): seq<Prepared> {
    Filter(Not(RedundantMemory(AbstractedSources(s))), s)
  }

  function Dropped(ordered: seq<Prepared>, unique: seq<Prepared>, kept: seq<Prepared>): seq<Exclusion> {
    Map(Excluding(DuplicateCandidate), SeenAgain(ordered, {}))
    + Map(Excluding(DedupedByHigherAbstraction), Filter(RedundantTopic(CoreLineages(unique)), unique))
    + Map(Excluding(DedupedByHigherAbstraction), Filter(RedundantMemory(AbstractedSources(kept)), kept))
  }

  function Resolve(candidates: seq<Prepared>, sets: seq<ConflictSet>): Resolved {
    var ordered := Ordered(candidates, sets);
    var unique := Unique(candidates, sets);
    var kept := WithoutTopics(unique);
    var last := WithoutMemories(kept);
    Resolved(last, Sort(ByReasonRevision, Dropped(ordered, unique, kept)), Filter(RetainedBy(RevisionIds(last)), sets))
  }

  // ----- The procedure --------------------------------------------------------------

  lemma {:induction false} FirstSeenSnoc(s: seq<Prepared>, seen: set<Id>, x: Prepared)
    ensures var again := x.RevisionId() in seen + RevisionIds(s);
      && FirstSeen(s + [x], seen) == FirstSeen(s, seen) + (if again then [] else [x])
      && SeenAgain(s + [x], seen) == SeenAgain(s, seen) + (if again then [x] else [])
    decreases |s|
  {
    if s == [] {
      assert s + [x] == [x];
    } else {
      assert (s + [x])[1..] == s[1..] + [x];
      assert RevisionIds(s) == {s[0].RevisionId()} + RevisionIds(s[1..]);
      if s[0].RevisionId() in seen {
        FirstSeenSnoc(s[1..], seen, x);
      } else {
        FirstSeenSnoc(s[1..], seen + {s[0].RevisionId()}, x);
        assert seen + {s[0].RevisionId()} + RevisionIds(s[1..]) == seen + RevisionIds(s);
      }
    }
  }

  lemma RevisionIdsSnoc(s: seq<Prepared>, x: Prepared)
    ensures RevisionIds(s + [x]) == RevisionIds(s) + {x.RevisionId()}
  {
  }

  // The map from revisions to groups, filled set by set.
  method GroupByRevision(sets: seq<ConflictSet>) returns (groups: map<Id, Id>)
    ensures forall r :: (if r in groups then Some(groups[r]) else None) == GroupOf(sets, r)
  {
    groups := map[];
    for i := 0 to |sets|
      invariant forall r :: (if r in groups then Some(groups[r]) else None) == GroupOf(sets[..i], r)
    {
      assert sets[..i + 1][..i] == sets[..i];
      groups := groups + map r | r in sets[i].members :: sets[i].group;
    }
    assert sets[..|sets|] == sets;
  }

  // The filter with a seen-set: keep the first of each revision.
  method DropDuplicates(ordered: seq<Prepared>) returns (unique: seq<Prepared>, exclusions: seq<Exclusion>)
    ensures unique == FirstSeen(ordered, {})
    ensures exclusions == Map(Excluding(DuplicateCandidate), SeenAgain(ordered, {}))
  {
    unique, exclusions := [], [];
    var seen: set<Id> := {};
    for i := 0 to |ordered|
      invariant seen == RevisionIds(ordered[..i])
      invariant unique == FirstSeen(ordered[..i], {})
      invariant exclusions == Map(Excluding(DuplicateCandidate), SeenAgain(ordered[..i], {}))
    {
      var c := ordered[i];
      assert ordered[..i + 1] == ordered[..i] + [c];
      FirstSeenSnoc(ordered[..i], {}, c);
      RevisionIdsSnoc(ordered[..i], c);
      if c.RevisionId() in seen {
        exclusions := exclusions + [Exclude(c.candidate, DuplicateCandidate)];
      } else {
        seen := seen + {c.RevisionId()};
        unique := unique + [c];
      }
    }
    assert ordered[..|ordered|] == ordered;
  }

  // The filter that pushes an exclusion for everything it drops.
  method DropRedundant(s: seq<Prepared>, redundant: Prepared -> bool) returns (kept: seq<Prepared>, exclusions: seq<Exclusion>)
    ensures kept == Filter(Not(redundant), s)
    ensures exclusions == Map(Excluding(DedupedByHigherAbstraction), Filter(redundant, s))
  {
    kept, exclusions := [], [];
    for i := 0 to |s|
      invariant kept == Filter(Not(redundant), s[..i])
      invariant exclusions == Map(Excluding(DedupedByHigherAbstraction), Filter(redundant, s[..i]))
    {
      assert s[..i + 1] == s[..i] + [s[i]];
      FilterSnoc(Not(redundant), s[..i], s[i]);
      FilterSnoc(redundant, s[..i], s[i]);
      if redundant(s[i]) {
        MapSnoc(Excluding(DedupedByHigherAbstraction), Filter(redundant, s[..i]), s[i]);
        exclusions := exclusions + [Exclude(s[i].candidate, DedupedByHigherAbstraction)];
      } else {
        kept := kept + [s[i]];
      }
    }
    assert s[..|s|] == s;
  }

  method ResolveConflictsAndDedupe(candidates: seq<Prepared>, sets: seq<ConflictSet>) returns (r: Resolved)
    ensures r == Resolve(candidates, sets)
  {
    var groups := GroupByRevision(sets);
    var annotated := seq(|candidates|, i requires 0 <= i < |candidates| =>
      candidates[i].(group := if candidates[i].RevisionId() in groups then Some(groups[candidates[i].RevisionId()]) else None));
    assert annotated == Map(Annotate(sets), candidates);
    var ordered := Sort(ByRevision, annotated);
    var unique, duplicates := DropDuplicates(ordered);
    var kept, topics := DropRedundant(unique, RedundantTopic(CoreLineages(unique)));
    var last, memories := DropRedundant(kept, RedundantMemory(AbstractedSources(kept)));
    r := Resolved(last, Sort(ByReasonRevision, duplicates + topics + memories), Filter(RetainedBy(RevisionIds(last)), sets));
  }
}
