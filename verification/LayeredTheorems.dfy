// The promises of the layered context compiler, end to end.
module LayeredTheorems {
  import opened Ordering
  import opened ContextTypes
  import opened LayeredCompiler
  import Filters = HardFilters
  import Conflicts = ConflictResolver
  import opened Theory = ConflictTheorems
  import Packer = TokenPacker

  // ----- The order of the candidates does not matter ----------------------------------

  // Slice, receipt, counts and status are the same for every arrangement of
  // candidates whose (lane, revision) pairs are distinct.
  lemma CompileForgetsOrder(i: Settings, a: seq<Candidate>, b: seq<Candidate>)
    requires multiset(a) == multiset(b) && Filters.DistinctSlots(a)
    ensures Compile(i, a) == Compile(i, b)
  {
    Filters.FilterForgetsOrder(i.options, a, b);
  }

  // ----- Looking candidates up by revision --------------------------------------------

  ghost predicate RankedOnce(ranked: seq<Ranked>) {
    forall i, j :: 0 <= i < j < |ranked| ==> ranked[i].candidate.RevisionId() != ranked[j].candidate.RevisionId()
  }

  ghost predicate RankedWell(ranked: seq<Ranked>) {
    RankedOnce(ranked) && forall r :: r in ranked ==> r.priority >= 0
  }

  lemma {:induction false} ByKeyFinds(ranked: seq<Ranked>, r: Ranked)
    requires RankedOnce(ranked) && r in ranked
    ensures ByKey(ranked, r.candidate.RevisionId()) == Some(r)
    decreases |ranked|
  {
    var k :| 0 <= k < |ranked| && ranked[k] == r;
    if k < |ranked| - 1 {
      assert ranked[..|ranked| - 1][k] == r;
      ByKeyFinds(ranked[..|ranked| - 1], r);
    }
  }

  function RevisionOfRanked(r: Ranked): Id { r.candidate.RevisionId() }

  lemma RankIsOnce(s: Scorer, candidates: seq<Prepared>)
    requires OnePerRevision(candidates)
    ensures RankedOnce(Rank(s, candidates))
  {
    var mapped, ranked := Map(RankOf(s), candidates), Rank(s, candidates);
    MapMultiset(RevisionOfRanked, mapped, ranked);
    DistinctMultiset(Map(RevisionOfRanked, mapped));
    DistinctMultiset(Map(RevisionOfRanked, ranked));
    forall i, j | 0 <= i < j < |mapped| ensures Map(RevisionOfRanked, mapped)[i] != Map(RevisionOfRanked, mapped)[j] { }
    forall i, j | 0 <= i < j < |ranked| ensures ranked[i].candidate.RevisionId() != ranked[j].candidate.RevisionId() {
      assert Map(RevisionOfRanked, ranked)[i] != Map(RevisionOfRanked, ranked)[j];
    }
  }

  lemma ItemsAreUnique(s: Scorer, ranked: seq<Ranked>)
    requires RankedOnce(ranked)
    ensures Packer.UniqueKeys(Map(ToItem(s), ranked))
  {
  }

  lemma RankedFacts(s: Scorer, candidates: seq<Prepared>)
    ensures forall r :: r in Rank(s, candidates) ==>
      r.candidate in candidates && r.score == s.score(r.candidate) && r.priority == ConstraintPriority(r.candidate)
  {
    SameMembers(Map(RankOf(s), candidates), Rank(s, candidates));
    forall r | r in Rank(s, candidates)
      ensures r.candidate in candidates && r.score == s.score(r.candidate) && r.priority == ConstraintPriority(r.candidate)
    {
      var p := MappedFrom(RankOf(s), candidates, r);
    }
  }

  // ----- Every candidate and every supplied exclusion is decided once -----------------

  function SlotOfDecision(d: LayeredDecision): Slot { Slot(d.memoryId, d.revisionId, d.lane) }

  function SlotOfRanked(r: Ranked): Slot { SlotOfPrepared(r.candidate) }

  function SlotByKey(ranked: seq<Ranked>): Packer.Item -> Slot {
    (i: Packer.Item) => match ByKey(ranked, i.key) case Some(r) => SlotOfRanked(r) case None => Slot(0, i.key, i.lane)
  }

  lemma FilterConserves(o: Filters.Options, candidates: seq<Candidate>)
    ensures multiset(Map(SlotOfCandidate, candidates))
         == multiset(Map(SlotOfPrepared, Filters.Eligible(o, candidates)))
          + multiset(Map(SlotOfExclusion, Filters.Exclusions(o, candidates)))
  {
    var kept, gone := Filter(Filters.Admitted(o), candidates), Filter(Filters.Refused(o), candidates);
    FilterSplits(Filters.Admitted(o), Filters.Refused(o), candidates);
    MapSplits(SlotOfCandidate, candidates, kept, gone);
    assert Map(SlotOfPrepared, Map(Filters.Prepare, kept)) == Map(SlotOfCandidate, kept);
    assert Map(SlotOfExclusion, Map(Filters.Refuse(o), gone)) == Map(SlotOfCandidate, gone);
    MapMultiset(SlotOfPrepared, Map(Filters.Prepare, kept), Filters.Eligible(o, candidates));
    MapMultiset(SlotOfExclusion, Map(Filters.Refuse(o), gone), Filters.Exclusions(o, candidates));
  }

  lemma RankConserves(s: Scorer, candidates: seq<Prepared>)
    ensures multiset(Map(SlotOfRanked, Rank(s, candidates))) == multiset(Map(SlotOfPrepared, candidates))
  {
    MapMultiset(SlotOfRanked, Map(RankOf(s), candidates), Rank(s, candidates));
    assert Map(SlotOfRanked, Map(RankOf(s), candidates)) == Map(SlotOfPrepared, candidates);
  }

  lemma PackConserves(i: Settings, ranked: seq<Ranked>)
    requires RankedWell(ranked)
    ensures multiset(Map(SlotOfDecision, PackedDecisions(i, ranked))) == multiset(Map(SlotOfRanked, ranked))
  {
    var items, packed := Map(ToItem(i.scorer), ranked), Packing(i, ranked);
    ItemsAreUnique(i.scorer, ranked);
    Packer.EveryCandidateDecidedOnce(items, i.budget);
    MapMultiset(SlotByKey(ranked), Map(Packer.ItemOf, packed), items);
    forall k | 0 <= k < |ranked| ensures SlotByKey(ranked)(items[k]) == SlotOfRanked(ranked[k]) {
      ByKeyFinds(ranked, ranked[k]);
    }
    assert Map(SlotByKey(ranked), items) == Map(SlotOfRanked, ranked);
    assert Map(SlotByKey(ranked), Map(Packer.ItemOf, packed)) == Map(SlotOfDecision, Map(DecisionFor(ranked), packed));
  }

  lemma RankIsWell(s: Scorer, candidates: seq<Prepared>)
    requires OnePerRevision(candidates)
    ensures RankedWell(Rank(s, candidates))
  {
    RankIsOnce(s, candidates);
    RankedFacts(s, candidates);
  }

  lemma RankingIsWell(i: Settings, f: Filtered)
    ensures RankedWell(Ranking(i, f))
  {
    ResultIsSettled(f.eligible, i.conflictSets);
    RankIsWell(i.scorer, Resolving(i, f).candidates);
  }

  // Every input candidate and every supplied exclusion gets exactly one decision,
  // through filter, dedupe, rank and pack.
  lemma EveryInputDecidedOnce(i: Settings, candidates: seq<Candidate>)
    ensures multiset(Map(SlotOfDecision, Decisions(i, Filtering(i, candidates))))
         == multiset(Map(SlotOfCandidate, candidates)) + multiset(Map(SlotOfExclusion, i.exclusions))
  {
    var f := Filtering(i, candidates);
    FilterConserves(i.options, candidates);
    AfterFilterDecidedOnce(i, f);
  }

  lemma AfterFilterDecidedOnce(i: Settings, f: Filtered)
    ensures multiset(Map(SlotOfDecision, Decisions(i, f)))
         == multiset(Map(SlotOfPrepared, f.eligible)) + multiset(Map(SlotOfExclusion, f.exclusions))
          + multiset(Map(SlotOfExclusion, i.exclusions))
  {
    var resolved, ranked := Resolving(i, f), Ranking(i, f);
    ResolveConserves(f.eligible, i.conflictSets);
    RankConserves(i.scorer, resolved.candidates);
    RankingIsWell(i, f);
    PackConserves(i, ranked);
    SlotsOfThree(f.exclusions, resolved.exclusions, i.exclusions);
    SlotsOfBoth(PackedDecisions(i, ranked), Excluded(i, f));
    MapMultiset(SlotOfDecision, AllDecisions(i, f), Decisions(i, f));
  }

  lemma SlotsOfBoth(packed: seq<LayeredDecision>, excluded: seq<Exclusion>)
    ensures multiset(Map(SlotOfDecision, packed + Map(ExclusionDecision, excluded)))
         == multiset(Map(SlotOfDecision, packed)) + multiset(Map(SlotOfExclusion, excluded))
  {
    assert Map(SlotOfDecision, Map(ExclusionDecision, excluded)) == Map(SlotOfExclusion, excluded);
    assert Map(SlotOfDecision, packed + Map(ExclusionDecision, excluded))
        == Map(SlotOfDecision, packed) + Map(SlotOfDecision, Map(ExclusionDecision, excluded));
  }

  // ----- The slice's own token count ----------------------------------------------------

  lemma {:induction false} TokenSumWithout(d: seq<LayeredDecision>, k: nat)
    requires k < |d|
    ensures TokenSum(d) == TokenSum(d[..k] + d[k + 1..]) + if d[k].tokens.Some? then d[k].tokens.value else 0
    decreases k
  {
    if k == 0 {
      assert d[..0] + d[1..] == d[1..];
    } else {
      TokenSumWithout(d[1..], k - 1);
      assert (d[..k] + d[k + 1..])[1..] == d[1..][..k - 1] + d[1..][k..];
    }
  }

  lemma {:induction false} TokenSumForgetsOrder(a: seq<LayeredDecision>, b: seq<LayeredDecision>)
    requires multiset(a) == multiset(b)
    ensures TokenSum(a) == TokenSum(b)
    decreases |a|
  {
    SameMembers(a, b);
    if a != [] {
      assert a[0] in b;
      var k :| 0 <= k < |b| && b[k] == a[0];
      TokenSumWithout(b, k);
      TakenFromBoth(a, b, k);
      TokenSumForgetsOrder(a[1..], b[..k] + b[k + 1..]);
    }
  }

  lemma {:induction false} ShownTokens(ranked: seq<Ranked>, d: seq<Packer.Decision>)
    requires forall x :: x in d ==> ByKey(ranked, x.item.key).Some?
    ensures TokenSum(Filter(Shown, Map(DecisionFor(ranked), d))) == Packer.Used(d)
    decreases |d|
  {
    if d != [] {
      var mapped := Map(DecisionFor(ranked), d);
      assert mapped[1..] == Map(DecisionFor(ranked), d[1..]);
      ShownTokens(ranked, d[1..]);
    }
  }

  ghost predicate HasRanking(i: Settings, ranked: seq<Ranked>, d: Packer.Decision) {
    && ByKey(ranked, d.item.key).Some?
    && ByKey(ranked, d.item.key).value in ranked
    && d.item == ToItem(i.scorer)(ByKey(ranked, d.item.key).value)
  }

  lemma PackedHaveRanking(i: Settings, ranked: seq<Ranked>)
    requires RankedWell(ranked)
    ensures forall d :: d in Packing(i, ranked) ==> HasRanking(i, ranked, d)
  {
    var items, packed := Map(ToItem(i.scorer), ranked), Packing(i, ranked);
    ItemsAreUnique(i.scorer, ranked);
    Packer.EveryCandidateDecidedOnce(items, i.budget);
    SameMembers(Map(Packer.ItemOf, packed), items);
    forall d | d in packed ensures HasRanking(i, ranked, d) {
      MapHas(Packer.ItemOf, packed, d);
      var r := MappedFrom(ToItem(i.scorer), ranked, d.item);
      ByKeyFinds(ranked, r);
    }
  }

  lemma ShownOfBoth(packed: seq<LayeredDecision>, excluded: seq<Exclusion>)
    ensures Filter(Shown, packed + Map(ExclusionDecision, excluded)) == Filter(Shown, packed)
  {
    FilterAppend(Shown, packed, Map(ExclusionDecision, excluded));
    FilterNone(Shown, Map(ExclusionDecision, excluded));
  }

  // The count that the receipt builder recomputes from the ordered decisions is the
  // packer's own, so it never exceeds the budget.
  lemma TokenUsedIsThePackers(i: Settings, f: Filtered)
    ensures SliceOf(i, f).tokenUsed == Packer.Used(Packing(i, Ranking(i, f)))
    ensures SliceOf(i, f).tokenUsed <= i.budget
  {
    var ranked := Ranking(i, f);
    RankingIsWell(i, f);
    PackedHaveRanking(i, ranked);
    ShownTokens(ranked, Packing(i, ranked));
    ShownOfBoth(PackedDecisions(i, ranked), Excluded(i, f));
    FilterMultiset(Shown, AllDecisions(i, f), Decisions(i, f));
    TokenSumForgetsOrder(Filter(Shown, AllDecisions(i, f)), Filter(Shown, Decisions(i, f)));
    Packer.PackingFitsAndIsMaximal(Map(ToItem(i.scorer), ranked), i.budget);
  }

  // ----- What reaches the slice -----------------------------------------------------------

  lemma PackedFromRanked(i: Settings, ranked: seq<Ranked>, d: LayeredDecision) returns (r: Ranked, x: Packer.Decision)
    requires RankedWell(ranked) && d in PackedDecisions(i, ranked)
    ensures r in ranked && x in Packing(i, ranked) && d == PackedDecision(r, x) && x.item == ToItem(i.scorer)(r)
  {
    PackedHaveRanking(i, ranked);
    x := MappedFrom(DecisionFor(ranked), Packing(i, ranked), d);
    assert HasRanking(i, ranked, x);
    r := ByKey(ranked, x.item.key).value;
  }

  lemma DecisionsSplit(i: Settings, f: Filtered, d: LayeredDecision)
    ensures d in Decisions(i, f) <==> d in PackedDecisions(i, Ranking(i, f)) || d in Map(ExclusionDecision, Excluded(i, f))
  {
    SameMembers(AllDecisions(i, f), Decisions(i, f));
    assert AllDecisions(i, f) == PackedDecisions(i, Ranking(i, f)) + Map(ExclusionDecision, Excluded(i, f));
  }

  lemma ExclusionsAreNotShown(excluded: seq<Exclusion>)
    ensures forall d :: d in Map(ExclusionDecision, excluded) ==> !d.included
  {
  }

  lemma ShownCameFromRanked(i: Settings, f: Filtered, d: LayeredDecision)
    requires d in SliceOf(i, f).items
    ensures d.included && d.item.Some? && d.item.value in Resolving(i, f).candidates
    ensures d.revisionId == d.item.value.RevisionId() && d.lane == d.item.value.Lane()
  {
    DecisionsSplit(i, f, d);
    ExclusionsAreNotShown(Excluded(i, f));
    RankingIsWell(i, f);
    var r, x := PackedFromRanked(i, Ranking(i, f), d);
    RankedFacts(i.scorer, Resolving(i, f).candidates);
  }

  // Whatever the slice shows is an input candidate that was revalidated, in an
  // allowed scope, active, valid at the time asked for, not hidden by its
  // sensitivity, and for a projection of the current frontier.
  lemma SliceShowsOnlyAdmissible(i: Settings, candidates: seq<Candidate>, d: LayeredDecision)
    requires d in SliceOf(i, Filtering(i, candidates)).items
    ensures d.item.Some? && d.item.value.candidate in candidates && Filters.Admissible(i.options, d.item.value.candidate)
  {
    var f := Filtering(i, candidates);
    ShownCameFromRanked(i, f, d);
    ResolvedWereEligible(f.eligible, i.conflictSets, d.item.value);
    var p :| p in f.eligible && p.candidate == d.item.value.candidate;
    Filters.EligibleWereCandidates(i.options, candidates, p);
  }

  lemma ResolvedWereEligible(eligible: seq<Prepared>, sets: seq<Conflicts.ConflictSet>, p: Prepared)
    requires p in Conflicts.Resolve(eligible, sets).candidates
    ensures exists q :: q in eligible && q.candidate == p.candidate
  {
    PassesKeepProjections(Conflicts.Unique(eligible, sets));
    FirstSeenFacts(Conflicts.Ordered(eligible, sets), {});
    OrderedFacts(eligible, sets);
    var q := MappedFrom(Conflicts.Annotate(sets), eligible, p);
  }

  // ----- When the result is rejected --------------------------------------------------------

  // The kind of a payload goes with the abstraction of its projection.
  predicate PayloadMatches(payload: Option<Payload>, abstraction: Abstraction) {
    match payload
    case None => true
    case Some(TopicPayload) => abstraction == L2Topic
    case Some(ScenarioPayload(_)) | Some(ProcedurePayload) => abstraction == L2Scenario
    case Some(RelationPayload) => abstraction == L2Relation
    case Some(CorePayload(_)) => abstraction == L3Core
  }

  // What the input schema guarantees of a candidate and of a supplied exclusion.
  predicate CandidateOk(c: Candidate) {
    match c
    case MemoryCandidate(lane, _, _, _, _, hasVector) => (lane == RecentL1 || lane == SemanticVector) && (lane == SemanticVector <==> hasVector)
    case ProjectionCandidate(lane, _, _, _, _, p, hasGraphPath) =>
      lane != RecentL1 && lane != SemanticVector && (lane == RelationGraph <==> hasGraphPath) && PayloadMatches(p.payload, p.abstraction)
  }

  predicate ExclusionOk(e: Exclusion) {
    (e.lane == RelationGraph <==> e.hasGraphPath) && (e.lane == SemanticVector <==> e.hasVector)
  }

  ghost predicate InputOk(i: Settings, candidates: seq<Candidate>) {
    && Packer.BudgetOk(i.budget)
    && (forall c :: c in candidates ==> CandidateOk(c))
    && (forall e :: e in i.exclusions ==> ExclusionOk(e))
  }

  ghost predicate FilteredOk(f: Filtered) {
    && (forall e :: e in f.exclusions ==> ExclusionOk(e))
    && (forall p :: p in f.eligible ==> CandidateOk(p.candidate))
  }

  lemma FilteringIsOk(i: Settings, candidates: seq<Candidate>)
    requires InputOk(i, candidates)
    ensures FilteredOk(Filtering(i, candidates))
  {
    var o := i.options;
    var gone := Filter(Filters.Refused(o), candidates);
    SameMembers(Map(Filters.Refuse(o), gone), Filters.Exclusions(o, candidates));
    forall e | e in Filters.Exclusions(o, candidates) ensures ExclusionOk(e) {
      var c := MappedFrom(Filters.Refuse(o), gone, e);
    }
    forall p | p in Filters.Eligible(o, candidates) ensures CandidateOk(p.candidate) {
      Filters.EligibleWereCandidates(o, candidates, p);
    }
  }

  lemma ExcludedPrepared(sets: seq<Conflicts.ConflictSet>, eligible: seq<Prepared>, e: Exclusion) returns (c: Candidate, reason: Reason)
    requires e in Conflicts.Resolve(eligible, sets).exclusions
    ensures e == Exclude(c, reason) && exists q :: q in eligible && q.candidate == c
  {
    var ordered, unique := Conflicts.Ordered(eligible, sets), Conflicts.Unique(eligible, sets);
    var kept := Conflicts.WithoutTopics(unique);
    var dropped := Conflicts.Dropped(ordered, unique, kept);
    SameMembers(dropped, Conflicts.Resolve(eligible, sets).exclusions);
    FirstSeenFacts(ordered, {});
    AgainFacts(ordered, {});
    OrderedFacts(eligible, sets);
    var p := DroppedFrom(ordered, unique, kept, e);
    c, reason := p.candidate, e.reason;
    var q := MappedFrom(Conflicts.Annotate(sets), eligible, p);
  }

  lemma {:induction false} AgainFacts(s: seq<Prepared>, seen: set<Id>)
    ensures forall p :: p in Conflicts.SeenAgain(s, seen) ==> p in s
    decreases |s|
  {
    if s != [] { AgainFacts(s[1..], if s[0].RevisionId() in seen then seen else seen + {s[0].RevisionId()}); }
  }

  lemma DroppedFrom(ordered: seq<Prepared>, unique: seq<Prepared>, kept: seq<Prepared>, e: Exclusion) returns (p: Prepared)
    requires e in Conflicts.Dropped(ordered, unique, kept)
    requires forall x :: x in unique ==> x in ordered
    requires forall x :: x in kept ==> x in unique
    requires forall x :: x in Conflicts.SeenAgain(ordered, {}) ==> x in ordered
    ensures p in ordered && e == Exclude(p.candidate, e.reason)
  {
    var again := Conflicts.SeenAgain(ordered, {});
    var topics := Filter(Conflicts.RedundantTopic(Conflicts.CoreLineages(unique)), unique);
    var memories := Filter(Conflicts.RedundantMemory(Conflicts.AbstractedSources(kept)), kept);
    if e in Map(Conflicts.Excluding(DuplicateCandidate), again) {
      p := MappedFrom(Conflicts.Excluding(DuplicateCandidate), again, e);
    } else if e in Map(Conflicts.Excluding(DedupedByHigherAbstraction), topics) {
      p := MappedFrom(Conflicts.Excluding(DedupedByHigherAbstraction), topics, e);
    } else {
      p := MappedFrom(Conflicts.Excluding(DedupedByHigherAbstraction), memories, e);
    }
  }

  lemma AllExclusionsOk(i: Settings, f: Filtered, e: Exclusion)
    requires FilteredOk(f) && (forall x :: x in i.exclusions ==> ExclusionOk(x)) && e in Excluded(i, f)
    ensures ExclusionOk(e)
  {
    if e in Resolving(i, f).exclusions {
      var c, reason := ExcludedPrepared(i.conflictSets, f.eligible, e);
      var q :| q in f.eligible && q.candidate == c;
    }
  }

  lemma PackedAreOk(i: Settings, f: Filtered, d: LayeredDecision)
    requires FilteredOk(f) && d in PackedDecisions(i, Ranking(i, f))
    ensures ReceiptItemOk(d)
  {
    RankingIsWell(i, f);
    var r, x := PackedFromRanked(i, Ranking(i, f), d);
    RankedFacts(i.scorer, Resolving(i, f).candidates);
    ResolvedWereEligible(f.eligible, i.conflictSets, r.candidate);
    var q :| q in f.eligible && q.candidate == r.candidate.candidate;
    assert CandidateOk(q.candidate);
  }

  lemma SliceIsOk(i: Settings, f: Filtered)
    ensures SliceOk(i.budget, SliceOf(i, f))
  {
    var s := SliceOf(i, f);
    TokenUsedIsThePackers(i, f);
    forall d | d in s.items && d.item.Some? && d.item.value.group.Some?
      ensures exists c :: c in s.conflictSets && c.group == d.item.value.group.value
    {
      ShownCameFromRanked(i, f, d);
      ConflictSetsResolve(f.eligible, i.conflictSets, d.item.value);
    }
  }

  lemma ReceiptOkExactly(i: Settings, f: Filtered)
    requires FilteredOk(f) && forall x :: x in i.exclusions ==> ExclusionOk(x)
    ensures ReceiptOk(Decisions(i, f)) <==> forall e :: e in Excluded(i, f) ==> e.lane != RelationGraph
  {
    forall e | e in Excluded(i, f) && e.lane == RelationGraph ensures !ReceiptOk(Decisions(i, f)) {
      MapHas(ExclusionDecision, Excluded(i, f), e);
      DecisionsSplit(i, f, ExclusionDecision(e));
      assert !ReceiptItemOk(ExclusionDecision(e));
    }
    forall d | d in Decisions(i, f) && !ReceiptItemOk(d) ensures exists e :: e in Excluded(i, f) && e.lane == RelationGraph {
      DecisionsSplit(i, f, d);
      if d in PackedDecisions(i, Ranking(i, f)) { PackedAreOk(i, f, d); }
      var e := MappedFrom(ExclusionDecision, Excluded(i, f), d);
      AllExclusionsOk(i, f, e);
    }
  }

  // The slice's own checks never fail. A call that the input schema admits is
  // rejected exactly when some relation_graph candidate or supplied exclusion ends
  // up excluded before ranking: such a line carries no projection.
  lemma RejectedExactlyOnExcludedGraphPath(i: Settings, candidates: seq<Candidate>)
    requires InputOk(i, candidates)
    ensures Compile(i, candidates) == Rejected <==>
      exists e :: e in Excluded(i, Filtering(i, candidates)) && e.lane == RelationGraph
  {
    var f := Filtering(i, candidates);
    FilteringIsOk(i, candidates);
    SliceIsOk(i, f);
    ReceiptOkExactly(i, f);
  }
}
