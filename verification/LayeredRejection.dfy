// Which inputs the layered compiler rejects as a whole, said of the candidates.
module LayeredRejection {
  import opened Ordering
  import opened ContextTypes
  import opened LayeredCompiler
  import opened LayeredTheorems
  import opened Theory = ConflictTheorems
  import Filters = HardFilters
  import Conflicts = ConflictResolver

  // Lanes whose candidates come before, or are, those of relation_graph when two
  // candidates have one revision.
  predicate GoesFirst(lane: Lane) {
    lane == Core || lane == RecentL1 || lane == RelationGraph
  }

  // A second admissible candidate has the revision of a relation_graph candidate.
  ghost predicate LosesItsRevision(o: Filters.Options, candidates: seq<Candidate>) {
    exists c, d :: PairIn(candidates, c, d) && Rivals(o, c, d)
  }

  predicate Rivals(o: Filters.Options, c: Candidate, d: Candidate) {
    && c.lane == RelationGraph && Filters.Admissible(o, c) && Filters.Admissible(o, d)
    && c.RevisionId() == d.RevisionId() && GoesFirst(d.lane)
  }

  // What a caller can look for in the input before the call.
  ghost predicate BadGraphPath(i: Settings, candidates: seq<Candidate>) {
    || (exists e :: e in i.exclusions && e.lane == RelationGraph)
    || (exists c :: c in candidates && c.lane == RelationGraph && !Filters.Admissible(i.options, c))
    || LosesItsRevision(i.options, candidates)
  }

  // ----- What becomes of two candidates ---------------------------------------------------

  function Settle(sets: seq<Conflicts.ConflictSet>, c: Candidate): Prepared {
    Conflicts.Annotate(sets)(Filters.Prepare(c))
  }

  function OrderedFor(i: Settings, candidates: seq<Candidate>): seq<Prepared> {
    Conflicts.Ordered(Filters.Eligible(i.options, candidates), i.conflictSets)
  }

  lemma PairOrdered(i: Settings, candidates: seq<Candidate>, c: Candidate, d: Candidate)
    requires PairIn(candidates, c, d) && Filters.Admissible(i.options, c) && Filters.Admissible(i.options, d)
    ensures PairIn(OrderedFor(i, candidates), Settle(i.conflictSets, c), Settle(i.conflictSets, d))
  {
    var kept, eligible := Filter(Filters.Admitted(i.options), candidates), Filters.Eligible(i.options, candidates);
    PairFiltered(Filters.Admitted(i.options), candidates, c, d);
    PairMapped(Filters.Prepare, kept, c, d);
    PairSameMultiset(Map(Filters.Prepare, kept), eligible, Filters.Prepare(c), Filters.Prepare(d));
    PairMapped(Conflicts.Annotate(i.conflictSets), eligible, Filters.Prepare(c), Filters.Prepare(d));
    PairSameMultiset(Map(Conflicts.Annotate(i.conflictSets), eligible), OrderedFor(i, candidates),
                     Settle(i.conflictSets, c), Settle(i.conflictSets, d));
  }

  lemma OrderedPair(i: Settings, candidates: seq<Candidate>, p: Prepared, q: Prepared) returns (c: Candidate, d: Candidate)
    requires PairIn(OrderedFor(i, candidates), p, q)
    ensures PairIn(candidates, c, d) && Filters.Admissible(i.options, c) && Filters.Admissible(i.options, d)
    ensures p == Settle(i.conflictSets, c) && q == Settle(i.conflictSets, d)
  {
    var kept, eligible := Filter(Filters.Admitted(i.options), candidates), Filters.Eligible(i.options, candidates);
    PairSameMultiset(Map(Conflicts.Annotate(i.conflictSets), eligible), OrderedFor(i, candidates), p, q);
    var x, y := PairMappedFrom(Conflicts.Annotate(i.conflictSets), eligible, p, q);
    PairSameMultiset(Map(Filters.Prepare, kept), eligible, x, y);
    c, d := PairMappedFrom(Filters.Prepare, kept, x, y);
    PairFiltered(Filters.Admitted(i.options), candidates, c, d);
  }

  // Candidates of one revision that are not vectors stay in the order of lanes.
  lemma OrderedByLane(i: Settings, candidates: seq<Candidate>)
    ensures SortedByBoth(Conflicts.ByRevision, Filters.ByLaneRevision, OrderedFor(i, candidates))
  {
    var kept, eligible := Filter(Filters.Admitted(i.options), candidates), Filters.Eligible(i.options, candidates);
    Filters.ByLaneRevisionOrders();
    ByRevisionOrders();
    SortSorts(Filters.ByLaneRevision, Map(Filters.Prepare, kept));
    assert SortedBy(Filters.ByLaneRevision, Map(Conflicts.Annotate(i.conflictSets), eligible));
    SortStable(Conflicts.ByRevision, Filters.ByLaneRevision, Map(Conflicts.Annotate(i.conflictSets), eligible));
  }

  // ----- Which duplicates are reported ------------------------------------------------------

  ghost predicate SeenBefore(s: seq<Prepared>, k: nat)
    requires k < |s|
  {
    exists j :: 0 <= j < k && s[j].RevisionId() == s[k].RevisionId()
  }

  lemma {:induction false} SeenAgainExactly(s: seq<Prepared>, p: Prepared)
    ensures p in Conflicts.SeenAgain(s, {}) <==> exists k :: 0 <= k < |s| && s[k] == p && SeenBefore(s, k)
  {
    if s != [] {
      var front, last := s[..|s| - 1], s[|s| - 1];
      assert s == front + [last];
      Conflicts.FirstSeenSnoc(front, {}, last);
      SeenAgainExactly(front, p);
      forall k | 0 <= k < |front| ensures SeenBefore(s, k) <==> SeenBefore(front, k) {
        assert forall j :: 0 <= j < k ==> s[j] == front[j];
      }
      assert last.RevisionId() in Conflicts.RevisionIds(front) <==> SeenBefore(s, |front|);
      if p in Conflicts.SeenAgain(front, {}) {
        var k :| 0 <= k < |front| && front[k] == p && SeenBefore(front, k);
        assert s[k] == p && SeenBefore(s, k);
      }
    }
  }

  lemma EarlierTwin(s: seq<Prepared>, p: Prepared) returns (q: Prepared)
    requires SortedByBoth(Conflicts.ByRevision, Filters.ByLaneRevision, s)
    requires p in Conflicts.SeenAgain(s, {}) && p.Lane() == RelationGraph
    ensures PairIn(s, p, q) && q.RevisionId() == p.RevisionId() && GoesFirst(q.Lane())
  {
    SeenAgainExactly(s, p);
    var k :| 0 <= k < |s| && s[k] == p && SeenBefore(s, k);
    var j :| 0 <= j < k && s[j].RevisionId() == s[k].RevisionId();
    q := s[j];
    TwinGoesFirst(s[j], s[k]);
  }

  lemma TwinGoesFirst(q: Prepared, p: Prepared)
    requires Then(Conflicts.ByRevision, Filters.ByLaneRevision, q, p)
    requires p.Lane() == RelationGraph && q.RevisionId() == p.RevisionId()
    ensures GoesFirst(q.Lane())
  {
    assert Conflicts.ByRevision(p, q);
    assert LaneName(q.Lane()) <= LaneName(RelationGraph);
  }

  lemma ReportedLoses(i: Settings, candidates: seq<Candidate>, p: Prepared)
    requires p in Conflicts.SeenAgain(OrderedFor(i, candidates), {}) && p.Lane() == RelationGraph
    ensures LosesItsRevision(i.options, candidates)
  {
    OrderedByLane(i, candidates);
    var q := EarlierTwin(OrderedFor(i, candidates), p);
    var c, d := OrderedPair(i, candidates, p, q);
    assert Rivals(i.options, c, d);
  }

  lemma LoserIsReported(i: Settings, candidates: seq<Candidate>)
    requires LosesItsRevision(i.options, candidates)
    ensures exists p :: p in Conflicts.SeenAgain(OrderedFor(i, candidates), {}) && p.Lane() == RelationGraph
  {
    var c, d :| PairIn(candidates, c, d) && Rivals(i.options, c, d);
    OrderedByLane(i, candidates);
    PairOrdered(i, candidates, c, d);
    LaterOneIsReported(OrderedFor(i, candidates), Settle(i.conflictSets, c), Settle(i.conflictSets, d));
  }

  lemma LaterOneIsReported(s: seq<Prepared>, p: Prepared, q: Prepared)
    requires SortedByBoth(Conflicts.ByRevision, Filters.ByLaneRevision, s) && PairIn(s, p, q)
    requires p.Lane() == RelationGraph && p.RevisionId() == q.RevisionId() && GoesFirst(q.Lane())
    ensures exists r :: r in Conflicts.SeenAgain(s, {}) && r.Lane() == RelationGraph
  {
    var j, k :| 0 <= j < |s| && 0 <= k < |s| && j != k && s[j] == p && s[k] == q;
    if k < j {
      assert SeenBefore(s, j);
      SeenAgainExactly(s, p);
    } else {
      assert Then(Conflicts.ByRevision, Filters.ByLaneRevision, s[j], s[k]);
      assert q.Lane() == RelationGraph;
      assert SeenBefore(s, k);
      SeenAgainExactly(s, q);
    }
  }

  // ----- Main result --------------------------------------------------------------------------

  lemma FilterExcludesGraphPath(i: Settings, candidates: seq<Candidate>)
    ensures (exists e :: e in Filters.Exclusions(i.options, candidates) && e.lane == RelationGraph)
      <==> exists c :: c in candidates && c.lane == RelationGraph && !Filters.Admissible(i.options, c)
  {
    var gone := Filter(Filters.Refused(i.options), candidates);
    SameMembers(Map(Filters.Refuse(i.options), gone), Filters.Exclusions(i.options, candidates));
    forall e | e in Filters.Exclusions(i.options, candidates) && e.lane == RelationGraph
      ensures exists c :: c in candidates && c.lane == RelationGraph && !Filters.Admissible(i.options, c)
    {
      var c := MappedFrom(Filters.Refuse(i.options), gone, e);
      assert !Filters.Admissible(i.options, c);
    }
    forall c | c in candidates && c.lane == RelationGraph && !Filters.Admissible(i.options, c)
      ensures exists e :: e in Filters.Exclusions(i.options, candidates) && e.lane == RelationGraph
    {
      Filters.EligibleExactlyAdmissible(i.options, candidates, c);
      assert Filters.Refuse(i.options)(c).lane == RelationGraph;
    }
  }

  // Deduplication by abstraction never drops a relation_graph candidate: its payload
  // is a relation.
  lemma DedupeExcludesGraphPath(i: Settings, candidates: seq<Candidate>)
    requires InputOk(i, candidates)
    ensures (exists e :: e in Resolving(i, Filtering(i, candidates)).exclusions && e.lane == RelationGraph)
      <==> LosesItsRevision(i.options, candidates)
  {
    var ordered, unique := OrderedFor(i, candidates), Conflicts.Unique(Filters.Eligible(i.options, candidates), i.conflictSets);
    var kept := Conflicts.WithoutTopics(unique);
    SameMembers(Conflicts.Dropped(ordered, unique, kept), Resolving(i, Filtering(i, candidates)).exclusions);
    UniqueAreRelations(i, candidates);
    if LosesItsRevision(i.options, candidates) { LoserIsReported(i, candidates); }
    forall p | p in Conflicts.SeenAgain(ordered, {}) && p.Lane() == RelationGraph
      ensures Conflicts.Excluding(DuplicateCandidate)(p) in Conflicts.Dropped(ordered, unique, kept)
    {
      MapHas(Conflicts.Excluding(DuplicateCandidate), Conflicts.SeenAgain(ordered, {}), p);
    }
    forall e | e in Conflicts.Dropped(ordered, unique, kept) && e.lane == RelationGraph
      ensures LosesItsRevision(i.options, candidates)
    {
      var p := DroppedGraphPath(ordered, unique, kept, e);
      ReportedLoses(i, candidates, p);
    }
  }

  lemma GraphPathIsRelation(o: Filters.Options, c: Candidate)
    requires CandidateOk(c) && Filters.Admissible(o, c) && c.lane == RelationGraph
    ensures c.ProjectionCandidate? && c.projection.payload == Some(RelationPayload)
  {
  }

  lemma UniqueAreRelations(i: Settings, candidates: seq<Candidate>)
    requires InputOk(i, candidates)
    ensures forall p :: p in Conflicts.Unique(Filters.Eligible(i.options, candidates), i.conflictSets) && p.Lane() == RelationGraph ==>
      p.PayloadOf() == Some(RelationPayload)
  {
    var eligible := Filters.Eligible(i.options, candidates);
    FirstSeenFacts(Conflicts.Ordered(eligible, i.conflictSets), {});
    OrderedFacts(eligible, i.conflictSets);
    forall p | p in Conflicts.Unique(eligible, i.conflictSets) && p.Lane() == RelationGraph ensures p.PayloadOf() == Some(RelationPayload) {
      var q := MappedFrom(Conflicts.Annotate(i.conflictSets), eligible, p);
      Filters.EligibleWereCandidates(i.options, candidates, q);
      GraphPathIsRelation(i.options, q.candidate);
    }
  }

  lemma DroppedGraphPath(ordered: seq<Prepared>, unique: seq<Prepared>, kept: seq<Prepared>, e: Exclusion) returns (p: Prepared)
    requires e in Conflicts.Dropped(ordered, unique, kept) && e.lane == RelationGraph
    requires forall x :: x in kept ==> x in unique
    requires forall x :: x in unique && x.Lane() == RelationGraph ==> x.PayloadOf() == Some(RelationPayload)
    ensures p in Conflicts.SeenAgain(ordered, {}) && p.Lane() == RelationGraph
  {
    var topics := Filter(Conflicts.RedundantTopic(Conflicts.CoreLineages(unique)), unique);
    var memories := Filter(Conflicts.RedundantMemory(Conflicts.AbstractedSources(kept)), kept);
    NoGraphPathAmong(DedupedByHigherAbstraction, topics);
    NoGraphPathAmong(DedupedByHigherAbstraction, memories);
    p := MappedFrom(Conflicts.Excluding(DuplicateCandidate), Conflicts.SeenAgain(ordered, {}), e);
  }

  lemma NoGraphPathAmong(reason: Reason, s: seq<Prepared>)
    requires forall p :: p in s ==> p.Lane() != RelationGraph
    ensures forall e :: e in Map(Conflicts.Excluding(reason), s) ==> e.lane != RelationGraph
  {
    forall e | e in Map(Conflicts.Excluding(reason), s) ensures e.lane != RelationGraph {
      var p := MappedFrom(Conflicts.Excluding(reason), s, e);
    }
  }

  // A call that the input schema admits is rejected exactly when a relation_graph
  // exclusion is supplied, or a relation_graph candidate is not admissible, or another
  // admissible candidate of its revision is of relation_graph, core or recent_l1.
  lemma RejectedExactlyForGraphPaths(i: Settings, candidates: seq<Candidate>)
    requires InputOk(i, candidates)
    ensures Compile(i, candidates) == Rejected <==> BadGraphPath(i, candidates)
  {
    RejectedExactlyOnExcludedGraphPath(i, candidates);
    FilterExcludesGraphPath(i, candidates);
    DedupeExcludesGraphPath(i, candidates);
  }

  // One secret relation on a graph path rejects whatever else there is.
  lemma SecretGraphPathRejects(i: Settings, candidates: seq<Candidate>, c: Candidate)
    requires InputOk(i, candidates) && c in candidates
    requires c.lane == RelationGraph && c.ProjectionCandidate? && c.projection.sensitivity == Secret
    ensures Compile(i, candidates) == Rejected
  {
    RejectedExactlyForGraphPaths(i, candidates);
  }

  // So do two admissible graph paths that end in one relation, although each of them
  // alone is compiled.
  lemma TwoPathsToOneRelationReject(i: Settings, c: Candidate, d: Candidate)
    requires InputOk(i, [c, d]) && i.exclusions == [] && c.lane == RelationGraph && d.lane == RelationGraph
    requires c.RevisionId() == d.RevisionId() && Filters.Admissible(i.options, c) && Filters.Admissible(i.options, d)
    ensures Compile(i, [c, d]) == Rejected && Compile(i, [c]).Returned? && Compile(i, [d]).Returned?
  {
    TwoPathsAreBad(i, c, d);
    RejectedExactlyForGraphPaths(i, [c, d]);
    assert forall x :: x in [c] || x in [d] ==> x in [c, d];
    AloneIsCompiled(i, c);
    AloneIsCompiled(i, d);
  }

  lemma TwoPathsAreBad(i: Settings, c: Candidate, d: Candidate)
    requires c.lane == RelationGraph && d.lane == RelationGraph && c.RevisionId() == d.RevisionId()
    requires Filters.Admissible(i.options, c) && Filters.Admissible(i.options, d)
    ensures BadGraphPath(i, [c, d])
  {
    assert [c, d][0] == c && [c, d][1] == d;
    assert PairIn([c, d], c, d) && Rivals(i.options, c, d);
  }

  lemma AloneIsGood(i: Settings, c: Candidate)
    requires i.exclusions == [] && Filters.Admissible(i.options, c)
    ensures !BadGraphPath(i, [c])
  {
    assert forall x, y :: !PairIn([c], x, y);
  }

  lemma AloneIsCompiled(i: Settings, c: Candidate)
    requires InputOk(i, [c]) && i.exclusions == [] && Filters.Admissible(i.options, c)
    ensures Compile(i, [c]).Returned?
  {
    AloneIsGood(i, c);
    RejectedExactlyForGraphPaths(i, [c]);
  }
}
