// What a revalidated graph candidate is, field by field, and what becomes one.
module GraphRevalidation {
  import opened Ordering
  import opened GraphRetriever

  // The bounds of a validity window around the time asked for; the end is exclusive.
  predicate Within(v: Validity, asOf: int) {
    v.validFrom <= asOf && (v.validTo.Some? ==> asOf < v.validTo.value)
  }

  // The scope frontier is ready and has these epochs, hashes and this transform.
  predicate AtFrontier(s: ScopeFrontier, ledger: nat, tombstone: nat, projection: nat, sourceHash: nat, projectionHash: nat, transform: Transform) {
    && s.ready && s.ledger == ledger && s.tombstone == tombstone && s.projection == projection
    && s.sourceHash == sourceHash && s.projectionHash == projectionHash && transform in s.transforms
  }

  ghost predicate CurrentNodeIn(q: Request, r: Reads, s: Snapshot, revision: nat) {
    && revision in s.nodes
    && var n := s.nodes[revision];
      && n.active && n.principal == q.principal && n.scope == q.scope && Within(n.validity, q.asOf)
      && AtFrontier(r.scopeFrontier, n.ledger, n.tombstone, n.projection, s.sourceHash, s.projectionHash, n.transform)
  }

  // The edge from one node to the next, and its canonical projection.
  ghost predicate CurrentEdgeIn(q: Request, r: Reads, s: Snapshot, source: nat, relation: nat, target: nat) {
    && relation in s.edges && relation in r.projections
    && var e, p := s.edges[relation], r.projections[relation];
      && e.source == source && e.target == target && Within(e.validity, q.asOf)
      && p.revision == relation && p.payload.Some?
      && p.payload.value.source == source && p.payload.value.target == target
      && p.payload.value.relationType == e.relationType && p.payload.value.directed == e.directed
      && p.contentHash == e.contentHash && p.evidence == e.evidence && p.sources == e.lineage
      && var f := p.frontier;
        AtFrontier(r.scopeFrontier, f.ledger, f.tombstone, f.projection, f.sourceHash, f.projectionHash, f.transform)
  }

  predicate TypeAsAsked(q: Request, p: Path, i: nat)
    requires i < |p.types|
  {
    i < |q.pattern| && i < q.maxDepth && p.types[i] == q.pattern[i]
  }

  ghost predicate CurrentPathIn(q: Request, r: Reads, s: Snapshot, p: Path) {
    && 0 < |p.relations| < |p.nodes| && |p.relations| <= q.maxDepth
    && (forall x :: x in p.relations ==> x in Allowed(q, r))
    && (forall i :: 0 <= i < |p.types| ==> TypeAsAsked(q, p, i))
    && (forall n :: n in p.nodes ==> CurrentNodeIn(q, r, s, n))
    && (forall i :: 0 <= i < |p.relations| ==> CurrentEdgeIn(q, r, s, p.nodes[i], p.relations[i], p.nodes[i + 1]))
  }

  lemma NodesInFields(q: Request, r: Reads, s: Snapshot, revision: nat)
    ensures NodeOk(q, r, s, revision) <==> CurrentNodeIn(q, r, s, revision)
  {
  }

  lemma StepInFields(q: Request, r: Reads, s: Snapshot, p: Path, i: nat)
    requires i < |p.relations| && i + 1 < |p.nodes|
    ensures StepOk(q, r, s, p, i) <==> CurrentEdgeIn(q, r, s, p.nodes[i], p.relations[i], p.nodes[i + 1])
  {
  }

  lemma TypesInFields(q: Request, p: Path)
    ensures TypesFollow(q, p) <==> forall i :: 0 <= i < |p.types| ==> TypeAsAsked(q, p, i)
  {
    var n := |p.types|;
    if forall i :: 0 <= i < n ==> TypeAsAsked(q, p, i) {
      if n > 0 { assert TypeAsAsked(q, p, n - 1); }
      forall i | 0 <= i < n ensures p.types[i] == Pattern(q)[i] { assert TypeAsAsked(q, p, i); }
    }
  }

  lemma PathInFields(q: Request, r: Reads, s: Snapshot, p: Path)
    ensures PathOk(q, r, s, Allowed(q, r), p) <==> CurrentPathIn(q, r, s, p)
  {
    TypesInFields(q, p);
    forall n ensures NodeOk(q, r, s, n) <==> CurrentNodeIn(q, r, s, n) { NodesInFields(q, r, s, n); }
    if PathOk(q, r, s, Allowed(q, r), p) {
      assert StepOk(q, r, s, p, |p.relations| - 1);
      forall i | 0 <= i < |p.relations| ensures CurrentEdgeIn(q, r, s, p.nodes[i], p.relations[i], p.nodes[i + 1]) {
        assert StepOk(q, r, s, p, i);
        StepInFields(q, r, s, p, i);
      }
    }
    if CurrentPathIn(q, r, s, p) {
      forall i | 0 <= i < |p.relations| ensures StepOk(q, r, s, p, i) {
        assert CurrentEdgeIn(q, r, s, p.nodes[i], p.relations[i], p.nodes[i + 1]);
        StepInFields(q, r, s, p, i);
      }
    }
  }

  lemma {:induction false} OkIsCandidate(q: Request, r: Reads, s: Snapshot, allowed: seq<nat>, paths: seq<Path>, index: nat, p: Path)
    requires p in paths && PathOk(q, r, s, allowed, p)
    ensures p in Map(PathOfCandidate, CandidatesFrom(q, r, s, allowed, paths, index))
    decreases |paths|
  {
    var all := CandidatesFrom(q, r, s, allowed, paths, index);
    if PathOk(q, r, s, allowed, paths[0]) {
      FirstCandidate(q, r, s, allowed, paths, index);
      var rest := CandidatesFrom(q, r, s, allowed, paths[1..], index + 1);
      if paths[0] == p {
        assert Map(PathOfCandidate, all)[0] == p;
      } else {
        OkIsCandidate(q, r, s, allowed, paths[1..], index + 1, p);
        var c := MappedFrom(PathOfCandidate, rest, p);
        assert c in all[1..];
        MapHas(PathOfCandidate, all, c);
      }
    } else {
      OkIsCandidate(q, r, s, allowed, paths[1..], index, p);
    }
  }

  // The snapshot that is canonical afterwards was canonical all the time, and its
  // digest is that of an unchanged checkpoint; the answer is the scope's own.
  ghost predicate Trusted(q: Request, r: Reads) {
    && 0 < |q.starts| && 0 < q.maxStarts && 0 < q.maxDepth && Allowed(q, r) != []
    && r.checkpoint.status == Ready && r.checkpoint.digest.Some? && r.checkpoint.frontier.Some? && r.checkpoint.identity.Some?
    && r.checkpointAfter == r.checkpoint
    && r.checkpoint.digest == Some(r.before.digest) && r.projected == Some(r.before)
    && r.after.Some? && r.checkpoint.digest == Some(r.after.value.digest)
    && (forall f :: f in [r.checkpoint.frontier.value, r.result.frontier] ==>
          AtFrontier(r.scopeFrontier, f.ledger, f.tombstone, f.projection, f.sourceHash, f.projectionHash, f.transform))
    && r.storeOpen && r.health.Some? && r.health.value.status != CircuitOpen
    && (r.health.value.status == HealthReady ==> r.health.value.identity == r.checkpoint.identity)
    && r.result.hashMatches && r.result.bytes <= q.maxResponseBytes
    && (r.result.complete ==> r.healthAfter == Some(Health(HealthReady, r.checkpoint.identity)))
  }

  lemma JudgedInFields(q: Request, r: Reads)
    ensures Judged(q, r) <==> Trusted(q, r)
  {
    if r.checkpoint.frontier.Some? {
      var both := [r.checkpoint.frontier.value, r.result.frontier];
      assert both[0] in both && both[1] in both;
    }
    if q.starts == {} { assert |q.starts| == 0; }
    if |q.starts| == 0 { assert q.starts == {}; }
  }

  // A path is a candidate exactly when the reads can be trusted, the graph returned it,
  // and everything on it is current: nodes active, of the request's principal and scope
  // and valid at its time; edges valid, from node to node, with the very projection that
  // says so; all at the scope's frontier; relations allowed; depth and types as asked.
  lemma CandidateExactly(q: Request, r: Reads, p: Path)
    ensures p in Map(PathOfCandidate, Retrieve(q, r).candidates) <==>
      Trusted(q, r) && p in r.result.paths && CurrentPathIn(q, r, r.after.value, p)
  {
    JudgedInFields(q, r);
    JudgedOrNoCandidates(q, r);
    if Judged(q, r) {
      PathInFields(q, r, r.after.value, p);
      CandidatesAreOk(q, r, r.after.value, Allowed(q, r), r.result.paths, 0);
      if p in Map(PathOfCandidate, Retrieve(q, r).candidates) {
        var c := MappedFrom(PathOfCandidate, Retrieve(q, r).candidates, p);
      }
      if p in r.result.paths && CurrentPathIn(q, r, r.after.value, p) {
        OkIsCandidate(q, r, r.after.value, Allowed(q, r), r.result.paths, 0, p);
      }
    }
  }

  // A candidate carries the projection of its last relation, and ranks by depth first
  // and then by its place among the candidates.
  lemma CandidateFields(q: Request, r: Reads, k: nat)
    requires k < |Retrieve(q, r).candidates|
    ensures var c := Retrieve(q, r).candidates[k];
      && c.path.relations != [] && c.path.relations[|c.path.relations| - 1] in r.projections
      && c.projection == r.projections[c.path.relations[|c.path.relations| - 1]]
      && c.rank == |c.path.relations| * 1000 + k
  {
    JudgedOrNoCandidates(q, r);
    CandidatesAreOk(q, r, r.after.value, Allowed(q, r), r.result.paths, 0);
    ProjectionOfLast(q, r, r.after.value, Allowed(q, r), r.result.paths, 0, k);
  }

  lemma {:induction false} ProjectionOfLast(q: Request, r: Reads, s: Snapshot, allowed: seq<nat>, paths: seq<Path>, index: nat, k: nat)
    requires k < |CandidatesFrom(q, r, s, allowed, paths, index)|
    ensures var c := CandidatesFrom(q, r, s, allowed, paths, index)[k];
      && c.path.relations != [] && c.path.relations[|c.path.relations| - 1] in r.projections
      && c.projection == r.projections[c.path.relations[|c.path.relations| - 1]]
    decreases |paths|
  {
    if PathOk(q, r, s, allowed, paths[0]) {
      FirstCandidate(q, r, s, allowed, paths, index);
      assert StepOk(q, r, s, paths[0], |paths[0].relations| - 1);
      if k > 0 {
        assert CandidatesFrom(q, r, s, allowed, paths, index)[k] == CandidatesFrom(q, r, s, allowed, paths, index)[1..][k - 1];
        ProjectionOfLast(q, r, s, allowed, paths[1..], index + 1, k - 1);
      }
    } else {
      ProjectionOfLast(q, r, s, allowed, paths[1..], index, k);
    }
  }

  // The allowlist is the hits in order, up to its limit.
  lemma AllowedInNumbers(q: Request, r: Reads)
    ensures forall j, k :: 0 <= j < k < |Allowed(q, r)| ==> Allowed(q, r)[j] < Allowed(q, r)[k]
    ensures |Allowed(q, r)| <= q.maxAllowlist && forall x :: x in Allowed(q, r) ==> x in r.hits
    ensures forall x :: x in r.hits && x !in Allowed(q, r) ==>
      |Allowed(q, r)| == q.maxAllowlist && forall y :: y in Allowed(q, r) ==> y < x
  {
    LeqOrders();
    ArrangedFacts(Leq, HitSet(r.hits));
    var all := Arranged(Leq, HitSet(r.hits));
    forall x ensures x in all <==> x in r.hits { assert x in all <==> x in HitSet(r.hits); }
    forall j, k | 0 <= j < k < |all| ensures all[j] < all[k] { assert Leq(all[j], all[k]); }
  }

  // ----- Reason codes ---------------------------------------------------------------------

  // A limit that the search for relations ran into.
  predicate LimitHit(q: Request, r: Reads, c: Code) {
    || (c == StartLimit && |q.starts| > q.maxStarts)
    || (c == FanoutLimit && 0 < r.fanoutTruncated)
    || (c == AllowlistLimit && |HitSet(r.hits)| > q.maxAllowlist)
  }

  ghost predicate SomePathIsNot(q: Request, r: Reads, s: Snapshot) {
    exists p :: p in r.result.paths && !CurrentPathIn(q, r, s, p)
  }

  // What each reason of an incomplete answer reports.
  ghost predicate Reported(q: Request, r: Reads, c: Code) {
    || LimitHit(q, r, c)
    || (c == ResultLimit && !r.result.complete)
    || (c == PostvalidationFailed && r.after.Some? && SomePathIsNot(q, r, r.after.value))
  }

  lemma FailedExactly(q: Request, r: Reads, s: Snapshot)
    ensures Filter(Failing(q, r, s, Allowed(q, r)), r.result.paths) != [] <==> SomePathIsNot(q, r, s)
  {
    var paths := r.result.paths;
    var failing := Failing(q, r, s, Allowed(q, r));
    forall p ensures failing(p) <==> !CurrentPathIn(q, r, s, p) { PathInFields(q, r, s, p); }
    if Filter(failing, paths) != [] { assert Filter(failing, paths)[0] in Filter(failing, paths); }
  }

  // A trusted answer gives exactly the reasons that apply, and is truncated exactly when
  // it gives one.
  lemma TrustedCodes(q: Request, r: Reads, c: Code)
    requires Trusted(q, r)
    ensures c in Retrieve(q, r).codes <==> Reported(q, r, c)
    ensures Retrieve(q, r).truncated <==> Retrieve(q, r).codes != {}
  {
    JudgedInFields(q, r);
    JudgedOrNoCandidates(q, r);
    RevalidatedCodes(q, r, r.after.value, c);
    TruncatedHasCode(q, r, r.after.value);
  }

  lemma RevalidatedCodes(q: Request, r: Reads, s: Snapshot, c: Code)
    requires r.after == Some(s)
    ensures c in Revalidated(q, r, s).codes <==> Reported(q, r, c)
  {
    FailedExactly(q, r, s);
    PrefilterReported(q, r);
    CodesOf(q, r, s);
  }

  lemma CodesOf(q: Request, r: Reads, s: Snapshot)
    ensures var failed := Filter(Failing(q, r, s, Allowed(q, r)), r.result.paths);
      Revalidated(q, r, s).codes
        == PrefilterCodes(q, r) + (if r.result.complete then {} else {ResultLimit}) + (if failed != [] then {PostvalidationFailed} else {})
  {
  }

  lemma TruncatedHasCode(q: Request, r: Reads, s: Snapshot)
    ensures Revalidated(q, r, s).truncated <==> Revalidated(q, r, s).codes != {}
  {
    var codes := Revalidated(q, r, s).codes;
    if Revalidated(q, r, s).truncated {
      assert StartLimit in codes || FanoutLimit in codes || AllowlistLimit in codes || ResultLimit in codes || PostvalidationFailed in codes;
    }
  }

  // What stands between the request and a trusted answer.
  ghost predicate Obstacle(q: Request, r: Reads, c: Code) {
    match c
    case StartEmpty => |q.starts| == 0 || q.maxStarts == 0
    case DepthZero => q.maxDepth == 0
    case ScopeNotReady =>
      !(r.checkpoint.status == Ready && r.checkpoint.digest.Some? && r.checkpoint.identity.Some? && r.checkpoint.frontier.Some?
        && var f := r.checkpoint.frontier.value;
          AtFrontier(r.scopeFrontier, f.ledger, f.tombstone, f.projection, f.sourceHash, f.projectionHash, f.transform))
    case StoreUnavailable => !r.storeOpen || r.health.None?
    case StoreCircuitOpen => r.health.Some? && r.health.value.status == CircuitOpen
    case IdentityMismatch => r.health.Some? && r.health.value.status == HealthReady && r.health.value.identity != r.checkpoint.identity
    case AllowlistEmpty => r.hits == [] || q.maxAllowlist == 0
    case DigestMismatch => r.checkpoint.digest != Some(r.before.digest) || r.projected != Some(r.before)
    case ResponseBytesLimit => r.result.bytes > q.maxResponseBytes
    case ProtocolInvalid =>
      var f := r.result.frontier;
      || !r.result.hashMatches
      || !AtFrontier(r.scopeFrontier, f.ledger, f.tombstone, f.projection, f.sourceHash, f.projectionHash, f.transform)
      || (r.result.complete && r.healthAfter != Some(Health(HealthReady, r.checkpoint.identity)))
    case PostvalidationFailed =>
      r.after.None? || r.checkpointAfter != r.checkpoint || Some(r.after.value.digest) != r.checkpoint.digest
    case _ => false
  }

  function Obstacles(): seq<Code> {
    [StartEmpty, DepthZero, ScopeNotReady, StoreUnavailable, StoreCircuitOpen, IdentityMismatch, AllowlistEmpty,
     DigestMismatch, ResponseBytesLimit, ProtocolInvalid, PostvalidationFailed]
  }

  ghost predicate ClearBefore(q: Request, r: Reads, k: nat)
    requires k <= |Obstacles()|
  {
    forall j :: 0 <= j < k ==> !Obstacle(q, r, Obstacles()[j])
  }

  lemma ClearAt(q: Request, r: Reads, k: nat, j: nat)
    requires j < k <= |Obstacles()| && ClearBefore(q, r, k)
    ensures !Obstacle(q, r, Obstacles()[j])
  {
  }

  lemma FrontierInFields(g: GraphFrontier, s: ScopeFrontier)
    ensures FrontierMatches(g, s) <==> AtFrontier(s, g.ledger, g.tombstone, g.projection, g.sourceHash, g.projectionHash, g.transform)
  {
  }

  lemma AllowedEmptyExactly(q: Request, r: Reads)
    ensures Allowed(q, r) == [] <==> Obstacle(q, r, AllowlistEmpty)
  {
    LeqOrders();
    ArrangedFacts(Leq, HitSet(r.hits));
    if r.hits != [] { assert r.hits[0] in HitSet(r.hits); }
  }

  // No obstacle among the first three, up to the allowlist, up to the digests, or at all.
  ghost predicate Asked(q: Request, r: Reads) {
    !Obstacle(q, r, StartEmpty) && !Obstacle(q, r, DepthZero) && !Obstacle(q, r, ScopeNotReady)
  }

  ghost predicate Connected(q: Request, r: Reads) {
    Asked(q, r) && !Obstacle(q, r, StoreUnavailable) && !Obstacle(q, r, StoreCircuitOpen) && !Obstacle(q, r, IdentityMismatch)
  }

  ghost predicate Queried(q: Request, r: Reads) {
    Connected(q, r) && !Obstacle(q, r, AllowlistEmpty) && !Obstacle(q, r, DigestMismatch)
  }

  lemma ClearByName(q: Request, r: Reads, k: nat)
    requires k <= |Obstacles()| && ClearBefore(q, r, k)
    ensures (k > 0 ==> !Obstacle(q, r, StartEmpty)) && (k > 1 ==> !Obstacle(q, r, DepthZero)) && (k >= 3 ==> Asked(q, r))
    ensures (k > 3 ==> !Obstacle(q, r, StoreUnavailable)) && (k > 4 ==> !Obstacle(q, r, StoreCircuitOpen)) && (k >= 6 ==> Connected(q, r))
    ensures (k > 6 ==> !Obstacle(q, r, AllowlistEmpty)) && (k >= 8 ==> Queried(q, r))
    ensures (k > 8 ==> !Obstacle(q, r, ResponseBytesLimit)) && (k > 9 ==> !Obstacle(q, r, ProtocolInvalid))
    ensures k > 10 ==> !Obstacle(q, r, PostvalidationFailed)
  {
    if k > 0 { ClearAt(q, r, k, 0); }
    if k > 1 { ClearAt(q, r, k, 1); }
    if k > 2 { ClearAt(q, r, k, 2); }
    if k > 3 { ClearAt(q, r, k, 3); }
    if k > 4 { ClearAt(q, r, k, 4); }
    if k > 5 { ClearAt(q, r, k, 5); }
    if k > 6 { ClearAt(q, r, k, 6); }
    if k > 7 { ClearAt(q, r, k, 7); }
    if k > 8 { ClearAt(q, r, k, 8); }
    if k > 9 { ClearAt(q, r, k, 9); }
    if k > 10 { ClearAt(q, r, k, 10); }
  }

  lemma ClearIsTrusted(q: Request, r: Reads)
    requires ClearBefore(q, r, |Obstacles()|)
    ensures Trusted(q, r)
  {
    ClearByName(q, r, |Obstacles()|);
    ConnectedUsable(q, r);
    FrontierInFields(r.result.frontier, r.scopeFrontier);
    AnsweredUsable(q, r);
    JudgedInFields(q, r);
  }

  lemma AnsweredUsable(q: Request, r: Reads)
    requires Asked(q, r)
    ensures !Obstacle(q, r, ProtocolInvalid) <==>
      r.result.hashMatches && FrontierMatches(r.result.frontier, r.scopeFrontier) && (r.result.complete ==> HealthStill(r.healthAfter, r.checkpoint))
  {
    FrontierInFields(r.result.frontier, r.scopeFrontier);
  }

  lemma TrustedMeetsNone(q: Request, r: Reads, c: Code)
    requires Trusted(q, r)
    ensures !Obstacle(q, r, c)
  {
    AllowedEmptyExactly(q, r);
    var both := [r.checkpoint.frontier.value, r.result.frontier];
    assert both[0] in both && both[1] in both;
  }

  // Answers can be trusted exactly when nothing stands in the way.
  lemma TrustedExactly(q: Request, r: Reads)
    ensures Trusted(q, r) <==> ClearBefore(q, r, |Obstacles()|)
  {
    if ClearBefore(q, r, |Obstacles()|) { ClearIsTrusted(q, r); }
    if Trusted(q, r) {
      forall c ensures !Obstacle(q, r, c) { TrustedMeetsNone(q, r, c); }
    }
  }

  // An answer without candidates for this reason, beside limits that were hit before.
  ghost predicate RefusedFor(q: Request, r: Reads, a: Result, c: Code) {
    && a.candidates == [] && c in a.codes
    && (forall d :: d in a.codes ==> d == c || LimitHit(q, r, d))
    && (a.truncated <==> c !in {StartEmpty, DepthZero, AllowlistEmpty} || a.codes != {c})
  }

  // Otherwise there are no candidates, and the reason given is the first obstacle.
  lemma RefusedInOrder(q: Request, r: Reads, k: nat)
    requires k < |Obstacles()| && Obstacle(q, r, Obstacles()[k]) && ClearBefore(q, r, k)
    ensures RefusedFor(q, r, Retrieve(q, r), Obstacles()[k])
  {
    if k < 3 {
      AskedRefused(q, r, k);
    } else if k < 6 {
      ConnectedRefused(q, r, k);
    } else {
      QueriedRefused(q, r, k);
    }
  }

  lemma AskedRefused(q: Request, r: Reads, k: nat)
    requires k < 3 && Obstacle(q, r, Obstacles()[k]) && ClearBefore(q, r, k)
    ensures RefusedFor(q, r, Retrieve(q, r), Obstacles()[k])
  {
    ClearByName(q, r, k);
    if k < 2 { StartsRefused(q, r); } else { ScopeRefused(q, r); }
  }

  lemma StartsRefused(q: Request, r: Reads)
    requires Obstacle(q, r, StartEmpty) || Obstacle(q, r, DepthZero)
    ensures var limit: set<Code> := if StartsLimited(q) then {StartLimit} else {};
      Retrieve(q, r) == Result([], [], StartsLimited(q), {if Obstacle(q, r, StartEmpty) then StartEmpty else DepthZero} + limit)
  {
    if q.starts != {} { assert |q.starts| > 0; }
  }

  lemma ScopeRefused(q: Request, r: Reads)
    requires !Obstacle(q, r, StartEmpty) && !Obstacle(q, r, DepthZero) && Obstacle(q, r, ScopeNotReady)
    ensures Retrieve(q, r) == Unavailable(ScopeNotReady)
  {
  }

  lemma ConnectedRefused(q: Request, r: Reads, k: nat)
    requires 3 <= k < 6 && Obstacle(q, r, Obstacles()[k]) && ClearBefore(q, r, k)
    ensures RefusedFor(q, r, Retrieve(q, r), Obstacles()[k])
  {
    ClearByName(q, r, k);
    ConnectedUsable(q, r);
  }

  lemma ConnectedUsable(q: Request, r: Reads)
    requires Asked(q, r)
    ensures q.starts != {} && q.maxStarts > 0 && q.maxDepth > 0 && CheckpointUsable(r.checkpoint, r.scopeFrontier)
    ensures Connected(q, r) <==> r.storeOpen && r.health.Some? && HealthUsable(r.health.value, r.checkpoint)
    ensures Queried(q, r) <==> Connected(q, r) && Allowed(q, r) != [] && SnapshotsAgree(r)
  {
    AllowedEmptyExactly(q, r);
  }

  lemma QueriedRefused(q: Request, r: Reads, k: nat)
    requires 6 <= k < |Obstacles()| && Obstacle(q, r, Obstacles()[k]) && ClearBefore(q, r, k)
    ensures RefusedFor(q, r, Retrieve(q, r), Obstacles()[k])
  {
    ClearByName(q, r, k);
    ConnectedUsable(q, r);
    if k == 6 {
      EmptyRefused(q, r);
    } else if k == 7 {
      DigestRefused(q, r);
    } else {
      AfterQueryRefused(q, r, k);
    }
  }

  lemma EmptyRefused(q: Request, r: Reads)
    requires Connected(q, r) && Obstacle(q, r, AllowlistEmpty)
    ensures RefusedFor(q, r, Retrieve(q, r), AllowlistEmpty)
  {
    ConnectedUsable(q, r);
    AllowedEmptyExactly(q, r);
    PrefilterReported(q, r);
    assert Retrieve(q, r) == Result([], [], PrefilterIncomplete(q, r), {AllowlistEmpty} + PrefilterCodes(q, r));
  }

  lemma DigestRefused(q: Request, r: Reads)
    requires Connected(q, r) && !Obstacle(q, r, AllowlistEmpty) && Obstacle(q, r, DigestMismatch)
    ensures Retrieve(q, r) == Unavailable(DigestMismatch)
  {
    ConnectedUsable(q, r);
    AllowedEmptyExactly(q, r);
  }

  lemma PrefilterReported(q: Request, r: Reads)
    ensures PrefilterIncomplete(q, r) <==> PrefilterCodes(q, r) != {}
    ensures forall c :: c in PrefilterCodes(q, r) <==> LimitHit(q, r, c)
  {
    if PrefilterIncomplete(q, r) {
      assert StartLimit in PrefilterCodes(q, r) || FanoutLimit in PrefilterCodes(q, r) || AllowlistLimit in PrefilterCodes(q, r);
    }
  }

  lemma AfterQueryRefused(q: Request, r: Reads, k: nat)
    requires 8 <= k < |Obstacles()| && Obstacle(q, r, Obstacles()[k]) && ClearBefore(q, r, k)
    requires Asked(q, r)
    ensures AfterQuery(q, r).candidates == [] && AfterQuery(q, r).codes == {Obstacles()[k]} && AfterQuery(q, r).truncated
  {
    ClearByName(q, r, k);
    FrontierInFields(r.result.frontier, r.scopeFrontier);
  }
}
