// GraphRecallRetriever.retrieve. Every read of storage and of the graph store is an
// input of its own: nothing says that two reads saw the same state.
module GraphRetriever {
  import opened Ordering
  import GraphPathQuery

  type Path = GraphPathQuery.Path

  datatype Option<+T> = None | Some(value: T)

  datatype Transform = Transform(name: nat, version: nat)

  datatype GraphFrontier = GraphFrontier(
    ledger: nat, tombstone: nat, projection: nat, sourceHash: nat, projectionHash: nat, transform: Transform)

  datatype ScopeFrontier = ScopeFrontier(
    ready: bool, ledger: nat, tombstone: nat, projection: nat, sourceHash: nat, projectionHash: nat,
    transforms: set<Transform>)

  datatype Validity = Validity(validFrom: int, validTo: Option<int>)

  datatype Node = Node(
    active: bool, principal: nat, scope: nat, validity: Validity,
    ledger: nat, tombstone: nat, projection: nat, transform: Transform)

  datatype Edge = Edge(
    source: nat, target: nat, relationType: nat, directed: bool, validity: Validity,
    contentHash: nat, evidence: multiset<nat>, lineage: multiset<nat>)

  // Nodes by revision and edges by relation revision; the snapshot schema makes
  // both unique. `digest` is the digest that the snapshot carries.
  datatype Snapshot = Snapshot(
    nodes: map<nat, Node>, edges: map<nat, Edge>, sourceHash: nat, projectionHash: nat, digest: nat)

  datatype RelationPayload = RelationPayload(source: nat, target: nat, relationType: nat, directed: bool)

  // Lists that the code compares after sorting them are multisets.
  datatype Projection = Projection(
    revision: nat, payload: Option<RelationPayload>, contentHash: nat,
    evidence: multiset<nat>, sources: multiset<nat>, frontier: GraphFrontier)

  datatype CheckpointStatus = Pending | Rebuilding | Ready | OtherCheckpoint

  datatype Checkpoint = Checkpoint(
    status: CheckpointStatus, frontier: Option<GraphFrontier>, digest: Option<nat>, identity: Option<nat>)

  datatype HealthStatus = CircuitOpen | HealthReady | OtherHealth

  datatype Health = Health(status: HealthStatus, identity: Option<nat>)

  datatype GraphResult = GraphResult(paths: seq<Path>, complete: bool, hashMatches: bool, frontier: GraphFrontier, bytes: nat)

  datatype Request = Request(
    principal: nat, scope: nat, asOf: int, starts: set<nat>, maxStarts: nat, maxDepth: nat,
    maxAllowlist: nat, maxResponseBytes: nat, pattern: seq<nat>)

  // What each read returned, in order; None stands for a read that failed.
  datatype Reads = Reads(
    scopeFrontier: ScopeFrontier, checkpoint: Checkpoint, storeOpen: bool, health: Option<Health>,
    hits: seq<nat>, fanoutTruncated: nat, before: Snapshot, projected: Option<Snapshot>,
    result: GraphResult, healthAfter: Option<Health>, checkpointAfter: Checkpoint, after: Option<Snapshot>,
    projections: map<nat, Projection>)

  datatype Code =
    | StartEmpty | DepthZero | StartLimit | ScopeNotReady | StoreUnavailable | StoreCircuitOpen | IdentityMismatch
    | FanoutLimit | AllowlistLimit | AllowlistEmpty | DigestMismatch | ResponseBytesLimit | ProtocolInvalid
    | PostvalidationFailed | ResultLimit

  datatype Candidate = Candidate(path: Path, projection: Projection, rank: nat)

  datatype Result = Result(candidates: seq<Candidate>, exclusions: seq<Path>, truncated: bool, codes: set<Code>)

  // ----- The checks -------------------------------------------------------------------

  predicate FrontierMatches(g: GraphFrontier, s: ScopeFrontier) {
    s.ready && g.ledger == s.ledger && g.tombstone == s.tombstone && g.projection == s.projection
    && g.sourceHash == s.sourceHash && g.projectionHash == s.projectionHash && g.transform in s.transforms
  }

  predicate ValidAt(v: Validity, asOf: int) {
    v.validFrom <= asOf && (v.validTo.None? || v.validTo.value > asOf)
  }

  predicate ProjectionMatchesEdge(p: Projection, relation: nat, e: Edge) {
    p.payload == Some(RelationPayload(e.source, e.target, e.relationType, e.directed))
    && p.revision == relation && p.contentHash == e.contentHash
    && p.evidence == e.evidence && p.sources == e.lineage
  }

  predicate CheckpointUsable(c: Checkpoint, s: ScopeFrontier) {
    s.ready && c.status == Ready && c.frontier.Some? && c.digest.Some? && c.identity.Some?
    && FrontierMatches(c.frontier.value, s)
  }

  predicate HealthUsable(h: Health, c: Checkpoint) {
    h.status != CircuitOpen && (h.status == HealthReady ==> h.identity.Some? && h.identity == c.identity)
  }

  predicate HealthStill(h: Option<Health>, c: Checkpoint) {
    h.Some? && h.value.status == HealthReady && h.value.identity.Some? && h.value.identity == c.identity
  }

  predicate Leq(a: nat, b: nat) { a <= b }

  function HitSet(hits: seq<nat>): set<nat> { set h | h in hits }

  ghost function Allowed(q: Request, r: Reads): seq<nat> {
    var observed := Arranged(Leq, HitSet(r.hits));
    if |observed| > q.maxAllowlist then observed[..q.maxAllowlist] else observed
  }

  predicate StartsLimited(q: Request) { |q.starts| > q.maxStarts }

  predicate AllowlistLimited(q: Request, r: Reads) { |HitSet(r.hits)| > q.maxAllowlist }

  predicate PrefilterIncomplete(q: Request, r: Reads) {
    StartsLimited(q) || r.fanoutTruncated > 0 || AllowlistLimited(q, r)
  }

  function PrefilterCodes(q: Request, r: Reads): set<Code> {
    (if StartsLimited(q) then {StartLimit} else {})
    + (if r.fanoutTruncated > 0 then {FanoutLimit} else {})
    + (if AllowlistLimited(q, r) then {AllowlistLimit} else {})
  }

  function Pattern(q: Request): seq<nat> {
    if |q.pattern| > q.maxDepth then q.pattern[..q.maxDepth] else q.pattern
  }

  // The step from one node of a path to the next, against the current snapshot.
  predicate StepOk(q: Request, r: Reads, s: Snapshot, p: Path, i: nat)
    requires i < |p.relations|
  {
    && i + 1 < |p.nodes|
    && p.relations[i] in s.edges && p.relations[i] in r.projections
    && var e, projection := s.edges[p.relations[i]], r.projections[p.relations[i]];
       && e.source == p.nodes[i] && e.target == p.nodes[i + 1]
       && ValidAt(e.validity, q.asOf)
       && ProjectionMatchesEdge(projection, p.relations[i], e)
       && FrontierMatches(projection.frontier, r.scopeFrontier)
  }

  predicate NodeOk(q: Request, r: Reads, s: Snapshot, revision: nat) {
    && revision in s.nodes
    && var n := s.nodes[revision];
       && n.active && n.principal == q.principal && n.scope == q.scope && ValidAt(n.validity, q.asOf)
       && FrontierMatches(
            GraphFrontier(n.ledger, n.tombstone, n.projection, s.sourceHash, s.projectionHash, n.transform), r.scopeFrontier)
  }

  predicate TypesFollow(q: Request, p: Path) {
    |p.types| <= |Pattern(q)| && forall i :: 0 <= i < |p.types| ==> p.types[i] == Pattern(q)[i]
  }

  predicate PathOk(q: Request, r: Reads, s: Snapshot, allowed: seq<nat>, p: Path) {
    && p.relations != [] && |p.relations| <= q.maxDepth
    && TypesFollow(q, p)
    && (forall x :: x in p.relations ==> x in allowed)
    && (forall i :: 0 <= i < |p.relations| ==> StepOk(q, r, s, p, i))
    && (forall n :: n in p.nodes ==> NodeOk(q, r, s, n))
  }

  // ----- The result ---------------------------------------------------------------------

  function Unavailable(code: Code): Result { Result([], [], true, {code}) }

  function CandidatesFrom(q: Request, r: Reads, s: Snapshot, allowed: seq<nat>, paths: seq<Path>, index: nat): seq<Candidate>
    decreases |paths|
  {
    if paths == [] then []
    else if PathOk(q, r, s, allowed, paths[0]) then
      var p := paths[0];
      assert StepOk(q, r, s, p, |p.relations| - 1);
      [Candidate(p, r.projections[p.relations[|p.relations| - 1]], |p.relations| * 1000 + index)]
      + CandidatesFrom(q, r, s, allowed, paths[1..], index + 1)
    else CandidatesFrom(q, r, s, allowed, paths[1..], index)
  }

  function Failing(q: Request, r: Reads, s: Snapshot, allowed: seq<nat>): Path -> bool {
    (p: Path) => !PathOk(q, r, s, allowed, p)
  }

  ghost function Revalidated(q: Request, r: Reads, s: Snapshot): Result {
    var allowed := Allowed(q, r);
    var failed := Filter(Failing(q, r, s, allowed), r.result.paths);
    Result(CandidatesFrom(q, r, s, allowed, r.result.paths, 0), failed,
      PrefilterIncomplete(q, r) || !r.result.complete || failed != [],
      PrefilterCodes(q, r) + (if r.result.complete then {} else {ResultLimit})
      + (if failed != [] then {PostvalidationFailed} else {}))
  }

  // After the query has answered.
  ghost function AfterQuery(q: Request, r: Reads): Result {
    if r.result.bytes > q.maxResponseBytes then Unavailable(ResponseBytesLimit)
    else if !r.result.hashMatches || !FrontierMatches(r.result.frontier, r.scopeFrontier)
      || (r.result.complete && !HealthStill(r.healthAfter, r.checkpoint)) then Unavailable(ProtocolInvalid)
    else if r.after.None? || r.checkpointAfter != r.checkpoint || Some(r.after.value.digest) != r.checkpoint.digest then
      Result([], r.result.paths, true, {PostvalidationFailed})
    else Revalidated(q, r, r.after.value)
  }

  predicate SnapshotsAgree(r: Reads) {
    && Some(r.before.digest) == r.checkpoint.digest
    && r.projected.Some? && Some(r.projected.value.digest) == r.checkpoint.digest
    && r.projected.value == r.before
  }

  ghost function Retrieve(q: Request, r: Reads): Result {
    if q.starts == {} || q.maxStarts == 0 then
      Result([], [], StartsLimited(q), {StartEmpty} + if StartsLimited(q) then {StartLimit} else {})
    else if q.maxDepth == 0 then
      Result([], [], StartsLimited(q), {DepthZero} + if StartsLimited(q) then {StartLimit} else {})
    else if !CheckpointUsable(r.checkpoint, r.scopeFrontier) then Unavailable(ScopeNotReady)
    else if !r.storeOpen || r.health.None? then Unavailable(StoreUnavailable)
    else if !HealthUsable(r.health.value, r.checkpoint) then
      Unavailable(if r.health.value.status == CircuitOpen then StoreCircuitOpen else IdentityMismatch)
    else if Allowed(q, r) == [] then
      Result([], [], PrefilterIncomplete(q, r), {AllowlistEmpty} + PrefilterCodes(q, r))
    else if !SnapshotsAgree(r) then Unavailable(DigestMismatch)
    else AfterQuery(q, r)
  }

  // ----- The procedure ----------------------------------------------------------------------

  lemma LeqOrders()
    ensures Preorder(Leq)
  {
  }

  // [...new Set(hits)].sort()
  method DistinctSorted(hits: seq<nat>) returns (sorted: seq<nat>)
    ensures sorted == Arranged(Leq, HitSet(hits))
  {
    var distinct: seq<nat> := [];
    for i := 0 to |hits|
      invariant Distinct(distinct)
      invariant forall h :: h in distinct <==> h in hits[..i]
    {
      assert hits[..i + 1] == hits[..i] + [hits[i]];
      if hits[i] !in distinct {
        distinct := distinct + [hits[i]];
      }
    }
    assert hits[..|hits|] == hits;
    LeqOrders();
    SortArranges(Leq, distinct, HitSet(hits));
    sorted := Sort(Leq, distinct);
  }

  method CheckEdges(q: Request, r: Reads, s: Snapshot, p: Path) returns (valid: bool, projection: Option<Projection>)
    ensures valid <==> forall i :: 0 <= i < |p.relations| ==> StepOk(q, r, s, p, i)
    ensures valid && p.relations != [] ==>
      p.relations[|p.relations| - 1] in r.projections && projection == Some(r.projections[p.relations[|p.relations| - 1]])
    ensures p.relations == [] ==> projection.None?
  {
    projection := None;
    valid := true;
    for i := 0 to |p.relations|
      invariant valid
      invariant forall k :: 0 <= k < i ==> StepOk(q, r, s, p, k)
      invariant i == 0 ==> projection.None?
      invariant i > 0 ==> p.relations[i - 1] in r.projections && projection == Some(r.projections[p.relations[i - 1]])
    {
      var relation := p.relations[i];
      if relation !in s.edges || relation !in r.projections || i + 1 >= |p.nodes|
        || s.edges[relation].source != p.nodes[i] || s.edges[relation].target != p.nodes[i + 1]
        || !ValidAt(s.edges[relation].validity, q.asOf)
        || !ProjectionMatchesEdge(r.projections[relation], relation, s.edges[relation])
        || !FrontierMatches(r.projections[relation].frontier, r.scopeFrontier)
      {
        assert !StepOk(q, r, s, p, i);
        valid := false;
        break;
      }
      projection := Some(r.projections[relation]);
    }
  }

  method CheckNodes(q: Request, r: Reads, s: Snapshot, p: Path) returns (valid: bool)
    ensures valid <==> forall n :: n in p.nodes ==> NodeOk(q, r, s, n)
  {
    valid := true;
    for i := 0 to |p.nodes|
      invariant valid
      invariant forall k :: 0 <= k < i ==> NodeOk(q, r, s, p.nodes[k])
    {
      if !NodeOk(q, r, s, p.nodes[i]) {
        valid := false;
        break;
      }
    }
  }

  lemma {:induction false} CandidatesSnoc(q: Request, r: Reads, s: Snapshot, allowed: seq<nat>, paths: seq<Path>, p: Path, index: nat)
    ensures CandidatesFrom(q, r, s, allowed, paths + [p], index)
         == CandidatesFrom(q, r, s, allowed, paths, index)
          + CandidatesFrom(q, r, s, allowed, [p], index + |CandidatesFrom(q, r, s, allowed, paths, index)|)
    decreases |paths|
  {
    if paths == [] {
      assert paths + [p] == [p];
    } else {
      assert (paths + [p])[1..] == paths[1..] + [p];
      CandidatesSnoc(q, r, s, allowed, paths[1..], p, if PathOk(q, r, s, allowed, paths[0]) then index + 1 else index);
    }
  }

  method RevalidatePaths(q: Request, r: Reads, s: Snapshot, allowed: seq<nat>)
    returns (candidates: seq<Candidate>, exclusions: seq<Path>)
    ensures candidates == CandidatesFrom(q, r, s, allowed, r.result.paths, 0)
    ensures exclusions == Filter(Failing(q, r, s, allowed), r.result.paths)
  {
    var paths := r.result.paths;
    candidates, exclusions := [], [];
    for i := 0 to |paths|
      invariant candidates == CandidatesFrom(q, r, s, allowed, paths[..i], 0)
      invariant exclusions == Filter(Failing(q, r, s, allowed), paths[..i])
    {
      var p := paths[i];
      assert paths[..i + 1] == paths[..i] + [p];
      CandidatesSnoc(q, r, s, allowed, paths[..i], p, 0);
      FilterSnoc(Failing(q, r, s, allowed), paths[..i], p);
      var candidate := RevalidatePath(q, r, s, allowed, p, |candidates|);
      if candidate.None? {
        exclusions := exclusions + [p];
      } else {
        candidates := candidates + [candidate.value];
      }
    }
    assert paths[..|paths|] == paths;
  }

  method RevalidatePath(q: Request, r: Reads, s: Snapshot, allowed: seq<nat>, p: Path, index: nat) returns (candidate: Option<Candidate>)
    ensures candidate.Some? <==> PathOk(q, r, s, allowed, p)
    ensures CandidatesFrom(q, r, s, allowed, [p], index) == if candidate.Some? then [candidate.value] else []
  {
    var valid := |p.relations| <= q.maxDepth && TypesFollow(q, p) && forall x :: x in p.relations ==> x in allowed;
    var edgesValid, projection := CheckEdges(q, r, s, p);
    var nodesValid := CheckNodes(q, r, s, p);
    assert [p][1..] == [];
    if !valid || !edgesValid || !nodesValid || projection.None? {
      return None;
    }
    return Some(Candidate(p, projection.value, |p.relations| * 1000 + index));
  }

  // The second half of retrieve, from the answer of the query on.
  method Conclude(q: Request, r: Reads, allowed: seq<nat>) returns (result: Result)
    requires allowed == Allowed(q, r)
    ensures result == AfterQuery(q, r)
  {
    if r.result.bytes > q.maxResponseBytes {
      return Unavailable(ResponseBytesLimit);
    }
    if !r.result.hashMatches || !FrontierMatches(r.result.frontier, r.scopeFrontier)
      || (r.result.complete && !HealthStill(r.healthAfter, r.checkpoint))
    {
      return Unavailable(ProtocolInvalid);
    }
    if r.after.None? || r.checkpointAfter != r.checkpoint || Some(r.after.value.digest) != r.checkpoint.digest {
      return Result([], r.result.paths, true, {PostvalidationFailed});
    }
    var candidates, exclusions := RevalidatePaths(q, r, r.after.value, allowed);
    var codes := PrefilterCodes(q, r);
    if !r.result.complete {
      codes := codes + {ResultLimit};
    }
    if exclusions != [] {
      codes := codes + {PostvalidationFailed};
    }
    result := Result(candidates, exclusions, PrefilterIncomplete(q, r) || !r.result.complete || exclusions != [], codes);
  }

  method RetrieveOnce(q: Request, r: Reads) returns (result: Result)
    ensures result == Retrieve(q, r)
  {
    if q.starts == {} || q.maxStarts == 0 {
      return Result([], [], StartsLimited(q), {StartEmpty} + if StartsLimited(q) then {StartLimit} else {});
    }
    if q.maxDepth == 0 {
      return Result([], [], StartsLimited(q), {DepthZero} + if StartsLimited(q) then {StartLimit} else {});
    }
    if !CheckpointUsable(r.checkpoint, r.scopeFrontier) {
      return Unavailable(ScopeNotReady);
    }
    if !r.storeOpen || r.health.None? {
      return Unavailable(StoreUnavailable);
    }
    if !HealthUsable(r.health.value, r.checkpoint) {
      return Unavailable(if r.health.value.status == CircuitOpen then StoreCircuitOpen else IdentityMismatch);
    }
    var observed := DistinctSorted(r.hits);
    var allowed := if |observed| > q.maxAllowlist then observed[..q.maxAllowlist] else observed;
    if allowed == [] {
      return Result([], [], PrefilterIncomplete(q, r), {AllowlistEmpty} + PrefilterCodes(q, r));
    }
    if !SnapshotsAgree(r) {
      return Unavailable(DigestMismatch);
    }
    result := Conclude(q, r, allowed);
  }

  // ----- What a result means ------------------------------------------------------------------

  // The reads after which paths are judged one by one.
  ghost predicate Judged(q: Request, r: Reads) {
    && q.starts != {} && q.maxStarts > 0 && q.maxDepth > 0
    && CheckpointUsable(r.checkpoint, r.scopeFrontier)
    && r.storeOpen && r.health.Some? && HealthUsable(r.health.value, r.checkpoint)
    && Allowed(q, r) != [] && SnapshotsAgree(r)
    && r.result.bytes <= q.maxResponseBytes
    && r.result.hashMatches && FrontierMatches(r.result.frontier, r.scopeFrontier)
    && (r.result.complete ==> HealthStill(r.healthAfter, r.checkpoint))
    && r.after.Some? && r.checkpointAfter == r.checkpoint && Some(r.after.value.digest) == r.checkpoint.digest
  }

  lemma JudgedOrNoCandidates(q: Request, r: Reads)
    ensures Judged(q, r) ==> Retrieve(q, r) == Revalidated(q, r, r.after.value)
    ensures !Judged(q, r) ==> Retrieve(q, r).candidates == []
    ensures !Judged(q, r) ==> Retrieve(q, r).exclusions == [] || (Retrieve(q, r).exclusions == r.result.paths && Retrieve(q, r).truncated)
  {
  }

  lemma {:induction false} CandidatesAreOk(q: Request, r: Reads, s: Snapshot, allowed: seq<nat>, paths: seq<Path>, index: nat)
    ensures forall c :: c in CandidatesFrom(q, r, s, allowed, paths, index) ==> c.path in paths && PathOk(q, r, s, allowed, c.path)
    ensures forall k :: 0 <= k < |CandidatesFrom(q, r, s, allowed, paths, index)| ==>
      var c := CandidatesFrom(q, r, s, allowed, paths, index)[k]; c.rank == |c.path.relations| * 1000 + index + k
    decreases |paths|
  {
    if paths != [] {
      CandidatesAreOk(q, r, s, allowed, paths[1..], if PathOk(q, r, s, allowed, paths[0]) then index + 1 else index);
    }
  }

  // The digest of a snapshot's content. It is injective.
  type Seal = (map<nat, Node>, map<nat, Edge>, nat, nat) -> nat

  ghost predicate SealOk(seal: Seal) {
    forall n, e, s, p, n', e', s', p' :: seal(n, e, s, p) == seal(n', e', s', p') ==> n == n' && e == e' && s == s' && p == p'
  }

  ghost predicate Sealed(seal: Seal, s: Snapshot) {
    s.digest == seal(s.nodes, s.edges, s.sourceHash, s.projectionHash)
  }

  lemma SameDigestSameSnapshot(seal: Seal, a: Snapshot, b: Snapshot)
    requires SealOk(seal) && Sealed(seal, a) && Sealed(seal, b) && a.digest == b.digest
    ensures a == b
  {
    assert seal(a.nodes, a.edges, a.sourceHash, a.projectionHash) == seal(b.nodes, b.edges, b.sourceHash, b.projectionHash);
  }

  ghost predicate WalkIn(s: Snapshot, p: Path) {
    && |p.nodes| > |p.relations|
    && forall i :: 0 <= i < |p.relations| ==>
         p.relations[i] in s.edges && s.edges[p.relations[i]].source == p.nodes[i] && s.edges[p.relations[i]].target == p.nodes[i + 1]
  }

  // Everything on the path is current, in scope and valid at the time asked for.
  ghost predicate CurrentIn(q: Request, r: Reads, s: Snapshot, p: Path) {
    && (forall n :: n in p.nodes ==> NodeOk(q, r, s, n))
    && (forall x :: x in p.relations ==>
          && x in s.edges && x in r.projections
          && ValidAt(s.edges[x].validity, q.asOf)
          && ProjectionMatchesEdge(r.projections[x], x, s.edges[x])
          && FrontierMatches(r.projections[x].frontier, r.scopeFrontier))
  }

  lemma OkPathsAreWalks(q: Request, r: Reads, s: Snapshot, allowed: seq<nat>, p: Path)
    requires PathOk(q, r, s, allowed, p)
    ensures WalkIn(s, p) && CurrentIn(q, r, s, p)
  {
    assert StepOk(q, r, s, p, |p.relations| - 1);
    forall i | 0 <= i < |p.relations|
      ensures p.relations[i] in s.edges && s.edges[p.relations[i]].source == p.nodes[i] && s.edges[p.relations[i]].target == p.nodes[i + 1]
    {
      assert StepOk(q, r, s, p, i);
    }
    forall x | x in p.relations
      ensures x in s.edges && x in r.projections && ValidAt(s.edges[x].validity, q.asOf)
        && ProjectionMatchesEdge(r.projections[x], x, s.edges[x]) && FrontierMatches(r.projections[x].frontier, r.scopeFrontier)
    {
      var i :| 0 <= i < |p.relations| && p.relations[i] == x;
      assert StepOk(q, r, s, p, i);
    }
  }

  // Even if storage changes between the reads, every returned candidate is a walk in
  // the one snapshot that was canonical before the query, during it and after it,
  // whose digest is that of the unchanged checkpoint; its nodes, edges and
  // projections are current, in scope and valid, its relations allowed, and the
  // types it reports follow the pattern.
  lemma CandidatesAreCanonicalWalks(seal: Seal, q: Request, r: Reads, c: Candidate)
    requires SealOk(seal) && Sealed(seal, r.before) && (r.after.Some? ==> Sealed(seal, r.after.value))
    requires c in Retrieve(q, r).candidates
    ensures r.checkpointAfter == r.checkpoint && r.checkpoint.digest == Some(r.before.digest)
    ensures r.after == Some(r.before) && r.projected == Some(r.before)
    ensures WalkIn(r.before, c.path) && CurrentIn(q, r, r.before, c.path)
    ensures c.path.relations != [] && |c.path.relations| <= q.maxDepth && TypesFollow(q, c.path)
    ensures forall x :: x in c.path.relations ==> x in HitSet(r.hits)
  {
    JudgedOrNoCandidates(q, r);
    SameDigestSameSnapshot(seal, r.before, r.after.value);
    CandidatesAreOk(q, r, r.after.value, Allowed(q, r), r.result.paths, 0);
    OkPathsAreWalks(q, r, r.before, Allowed(q, r), c.path);
    LeqOrders();
    ArrangedFacts(Leq, HitSet(r.hits));
  }

  function PathOfCandidate(c: Candidate): Path { c.path }

  lemma FirstCandidate(q: Request, r: Reads, s: Snapshot, allowed: seq<nat>, paths: seq<Path>, index: nat)
    requires paths != [] && PathOk(q, r, s, allowed, paths[0])
    ensures var all := CandidatesFrom(q, r, s, allowed, paths, index);
      all != [] && all[0].path == paths[0] && all[1..] == CandidatesFrom(q, r, s, allowed, paths[1..], index + 1)
  {
  }

  lemma {:induction false} CandidatesAndFailures(q: Request, r: Reads, s: Snapshot, allowed: seq<nat>, paths: seq<Path>, index: nat)
    ensures multiset(Map(PathOfCandidate, CandidatesFrom(q, r, s, allowed, paths, index)))
          + multiset(Filter(Failing(q, r, s, allowed), paths)) == multiset(paths)
    decreases |paths|
  {
    if paths != [] {
      var ok := PathOk(q, r, s, allowed, paths[0]);
      CandidatesAndFailures(q, r, s, allowed, paths[1..], if ok then index + 1 else index);
      HeadTail(paths);
      if ok {
        MapHead(PathOfCandidate, CandidatesFrom(q, r, s, allowed, paths, index));
        FirstCandidate(q, r, s, allowed, paths, index);
      } else {
        ConsCounts(paths[0], Filter(Failing(q, r, s, allowed), paths[1..]));
      }
    }
  }

  // Candidates and exclusions partition the paths that the graph returned, or the
  // result holds neither.
  lemma PathsArePartitioned(q: Request, r: Reads)
    ensures var result := Retrieve(q, r);
      || (result.candidates == [] && result.exclusions == [])
      || multiset(Map(PathOfCandidate, result.candidates)) + multiset(result.exclusions) == multiset(r.result.paths)
  {
    JudgedOrNoCandidates(q, r);
    if Judged(q, r) {
      CandidatesAndFailures(q, r, r.after.value, Allowed(q, r), r.result.paths, 0);
    } else {
      assert Map(PathOfCandidate, []) == [];
    }
  }

  ghost predicate WholeAnswer(q: Request, r: Reads) {
    && Judged(q, r) && r.result.complete && Retrieve(q, r).exclusions == []
    && Map(PathOfCandidate, Retrieve(q, r).candidates) == r.result.paths
  }

  // A result that is not marked truncated hit no limit and dropped nothing: no
  // start, no hit and no path is missing.
  lemma NotTruncatedMeansWhole(q: Request, r: Reads)
    requires !Retrieve(q, r).truncated
    ensures |q.starts| <= q.maxStarts
    ensures q.starts == {} || q.maxDepth == 0 ||
      (r.fanoutTruncated == 0 && forall h :: h in r.hits ==> h in Allowed(q, r))
    ensures q.starts == {} || q.maxDepth == 0 || r.hits == [] || WholeAnswer(q, r)
  {
    AllowedHolds(q, r);
    JudgedOrNoCandidates(q, r);
    if Judged(q, r) { NoFailuresAllCandidates(q, r, r.after.value, Allowed(q, r), r.result.paths, 0); }
  }

  lemma AllowedHolds(q: Request, r: Reads)
    ensures !AllowlistLimited(q, r) ==> forall h :: h in r.hits ==> h in Allowed(q, r)
    ensures r.hits == [] ==> Allowed(q, r) == []
    ensures r.hits != [] && !AllowlistLimited(q, r) ==> Allowed(q, r) != []
  {
    LeqOrders();
    ArrangedFacts(Leq, HitSet(r.hits));
    if r.hits != [] { assert r.hits[0] in HitSet(r.hits); }
  }

  lemma {:induction false} NoFailuresAllCandidates(q: Request, r: Reads, s: Snapshot, allowed: seq<nat>, paths: seq<Path>, index: nat)
    ensures Filter(Failing(q, r, s, allowed), paths) == [] ==>
      Map(PathOfCandidate, CandidatesFrom(q, r, s, allowed, paths, index)) == paths
    decreases |paths|
  {
    if paths != [] {
      NoFailuresAllCandidates(q, r, s, allowed, paths[1..], index + 1);
    }
  }

  // ----- Types --------------------------------------------------------------------------------

  // The types of the canonical edges are not compared with the reported ones. A graph
  // that reports types in the wrong order: the pattern asks for type 1 and then type 2,
  // and so says the path; the canonical edges and their projections have type 2 and
  // then type 1.
  const MISREPORTED_REQUEST := Request(0, 0, 5, {1}, 1, 2, 2, 100, [1, 2])

  const MISREPORTED_FRONTIER := GraphFrontier(1, 1, 1, 1, 1, Transform(0, 0))

  const MISREPORTED_PATH := GraphPathQuery.Path.Path([1, 2, 3], [8, 9], [1, 2])

  function CurrentNode(): Node { Node(true, 0, 0, Validity(0, None), 1, 1, 1, Transform(0, 0)) }

  function TypedEdge(source: nat, target: nat, relationType: nat): Edge {
    Edge(source, target, relationType, true, Validity(0, None), 3, multiset{4}, multiset{5})
  }

  function TypedProjection(revision: nat, source: nat, target: nat, relationType: nat): Projection {
    Projection(revision, Some(RelationPayload(source, target, relationType, true)), 3, multiset{4}, multiset{5}, MISREPORTED_FRONTIER)
  }

  function MisreportedSnapshot(): Snapshot {
    Snapshot(map[1 := CurrentNode(), 2 := CurrentNode(), 3 := CurrentNode()],
             map[8 := TypedEdge(1, 2, 2), 9 := TypedEdge(2, 3, 1)], 1, 1, 9)
  }

  function MisreportedReads(): Reads {
    var c := Checkpoint(Ready, Some(MISREPORTED_FRONTIER), Some(9), Some(7));
    var h := Some(Health(HealthReady, Some(7)));
    var s := MisreportedSnapshot();
    Reads(ScopeFrontier(true, 1, 1, 1, 1, 1, {Transform(0, 0)}), c, true, h, [8, 9], 0, s, Some(s),
      GraphResult([MISREPORTED_PATH], true, true, MISREPORTED_FRONTIER, 10), h, c, Some(s),
      map[8 := TypedProjection(8, 1, 2, 2), 9 := TypedProjection(9, 2, 3, 1)])
  }

  lemma MisreportedAllowed(q: Request, r: Reads)
    requires q.maxAllowlist == 2 && r.hits == [8, 9]
    ensures !AllowlistLimited(q, r) && 8 in Allowed(q, r) && 9 in Allowed(q, r)
  {
    LeqOrders();
    ArrangedFacts(Leq, HitSet(r.hits));
    assert HitSet(r.hits) == {8, 9} by { assert r.hits[0] == 8 && r.hits[1] == 9; }
    assert |{8, 9}| == 2;
  }

  lemma MisreportedPathIsOk(allowed: seq<nat>)
    requires 8 in allowed && 9 in allowed
    ensures PathOk(MISREPORTED_REQUEST, MisreportedReads(), MisreportedSnapshot(), allowed, MISREPORTED_PATH)
  {
    var q, r, s, p := MISREPORTED_REQUEST, MisreportedReads(), MisreportedSnapshot(), MISREPORTED_PATH;
    assert Pattern(q) == [1, 2];
    assert StepOk(q, r, s, p, 0);
    assert StepOk(q, r, s, p, 1);
    assert NodeOk(q, r, s, 1) && NodeOk(q, r, s, 2) && NodeOk(q, r, s, 3);
  }

  lemma MisreportedJudged()
    ensures Judged(MISREPORTED_REQUEST, MisreportedReads())
    ensures !PrefilterIncomplete(MISREPORTED_REQUEST, MisreportedReads())
  {
    MisreportedAllowed(MISREPORTED_REQUEST, MisreportedReads());
    assert |{1}| == 1;
  }

  // It is believed: the path becomes the one candidate of a complete result.
  lemma WrongTypesAreAccepted()
    ensures var result := Retrieve(MISREPORTED_REQUEST, MisreportedReads());
      && Map(PathOfCandidate, result.candidates) == [MISREPORTED_PATH] && !result.truncated
    ensures MISREPORTED_PATH.types == [1, 2]
    ensures MisreportedSnapshot().edges[8].relationType == 2 && MisreportedSnapshot().edges[9].relationType == 1
  {
    var q, r := MISREPORTED_REQUEST, MisreportedReads();
    var allowed := Allowed(q, r);
    MisreportedAllowed(q, r);
    MisreportedPathIsOk(allowed);
    MisreportedJudged();
    JudgedOrNoCandidates(q, r);
    assert [MISREPORTED_PATH][1..] == [];
    assert Filter(Failing(q, r, MisreportedSnapshot(), allowed), [MISREPORTED_PATH]) == [];
    NoFailuresAllCandidates(q, r, MisreportedSnapshot(), allowed, [MISREPORTED_PATH], 0);
  }
}
