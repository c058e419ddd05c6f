// The retriever over the graph that it asks: the query it sends, the walks that the
// engine finds in the projected snapshot, and the candidates that come out.
module GraphRecall {
  import opened Ordering
  import GraphPathQuery
  import opened GraphRetriever

  // ----- The graph that holds a snapshot --------------------------------------------------

  function StoredLinks(key: string, s: Snapshot): set<GraphPathQuery.Link> {
    set x | x in s.edges ::
      GraphPathQuery.Link(GraphPathQuery.Node(s.edges[x].source, key), GraphPathQuery.Node(s.edges[x].target, key), x,
                          s.edges[x].relationType, key)
  }

  // The query that the retriever sends: the starts and the allowlist are cut to their
  // limits, the pattern to the depth.
  ghost predicate SentQuery(q: Request, r: Reads, g: GraphPathQuery.Query) {
    && GraphPathQuery.QueryOk(g)
    && g.pattern == Pattern(q) && g.allowed == HitSet(Allowed(q, r))
    && g.starts <= q.starts && (!StartsLimited(q) ==> g.starts == q.starts)
  }

  // The result that was read is an answer over the snapshot that was read from the
  // same store, for whatever rows the engine's limit picked.
  ghost predicate Answered(q: Request, r: Reads, g: GraphPathQuery.Query, hash: GraphPathQuery.Hash, rows: seq<GraphPathQuery.Row>, late: bool) {
    && SentQuery(q, r, g)
    && r.projected.Some? && GraphPathQuery.NativeAnswer(StoredLinks(g.key, r.projected.value), g, rows)
    && var a := GraphPathQuery.QueryPaths(g, hash, rows, late);
       a.Answer? && a.paths == r.result.paths && a.complete == r.result.complete
  }

  // ----- Walks of a snapshot ----------------------------------------------------------------

  // A walk in the snapshot of the pattern's length, from a start, over relations in
  // `allowed`, whose edges have the types of the pattern, with these types reported.
  ghost predicate PatternWalk(pattern: seq<nat>, starts: set<nat>, allowed: set<nat>, s: Snapshot, p: Path) {
    && |p.relations| == |pattern| == |p.types| && |p.nodes| == |pattern| + 1
    && p.nodes[0] in starts
    && WalkIn(s, p)
    && forall i :: 0 <= i < |p.relations| ==>
         p.relations[i] in allowed && s.edges[p.relations[i]].relationType == pattern[i] && p.types[i] == pattern[i]
  }

  lemma StoredLinkFacts(key: string, s: Snapshot, l: GraphPathQuery.Link)
    requires l in StoredLinks(key, s)
    ensures l.relation in s.edges && l.scopeKey == key && l.source.scopeKey == key && l.target.scopeKey == key
    ensures var e := s.edges[l.relation]; l.source.revision == e.source && l.target.revision == e.target && l.relationType == e.relationType
  {
  }

  // What the engine is asked for are exactly the pattern's walks in the snapshot.
  lemma WantedIsPatternWalk(g: GraphPathQuery.Query, s: Snapshot, p: Path)
    requires GraphPathQuery.QueryOk(g)
    ensures GraphPathQuery.Wanted(StoredLinks(g.key, s), g, p) <==> PatternWalk(g.pattern, g.starts, g.allowed, s, p)
  {
    if GraphPathQuery.Wanted(StoredLinks(g.key, s), g, p) {
      var row :| GraphPathQuery.IsWanted(StoredLinks(g.key, s), g, row) && GraphPathQuery.PathOf(row) == p;
      WantedRowWalks(g, s, row);
    }
    if PatternWalk(g.pattern, g.starts, g.allowed, s, p) {
      WalkIsWanted(g, s, p);
    }
  }

  lemma WantedRowWalks(g: GraphPathQuery.Query, s: Snapshot, row: GraphPathQuery.Row)
    requires GraphPathQuery.IsWanted(StoredLinks(g.key, s), g, row)
    ensures PatternWalk(g.pattern, g.starts, g.allowed, s, GraphPathQuery.PathOf(row))
  {
    forall i | 0 <= i < |row.links|
      ensures row.links[i].relation in s.edges && row.links[i].relation in g.allowed && row.links[i].relationType == g.pattern[i]
      ensures var e := s.edges[row.links[i].relation];
        e.source == row.nodes[i].revision && e.target == row.nodes[i + 1].revision && e.relationType == g.pattern[i]
    {
      StoredLinkFacts(g.key, s, row.links[i]);
      assert row.links[i] in row.links;
    }
  }

  function NodeAt(key: string): nat -> GraphPathQuery.Node {
    (revision: nat) => GraphPathQuery.Node(revision, key)
  }

  function LinkOf(key: string, s: Snapshot): nat -> GraphPathQuery.Link {
    (x: nat) =>
      if x in s.edges then
        GraphPathQuery.Link(GraphPathQuery.Node(s.edges[x].source, key), GraphPathQuery.Node(s.edges[x].target, key), x,
                            s.edges[x].relationType, key)
      else GraphPathQuery.Link(GraphPathQuery.Node(0, key), GraphPathQuery.Node(0, key), x, 0, key)
  }

  function RowOf(key: string, s: Snapshot, p: Path): GraphPathQuery.Row {
    GraphPathQuery.Row(Map(NodeAt(key), p.nodes), Map(LinkOf(key, s), p.relations))
  }

  lemma WalkIsWanted(g: GraphPathQuery.Query, s: Snapshot, p: Path)
    requires PatternWalk(g.pattern, g.starts, g.allowed, s, p)
    ensures GraphPathQuery.Wanted(StoredLinks(g.key, s), g, p)
  {
    var row := RowOf(g.key, s, p);
    forall i | 0 <= i < |row.links|
      ensures row.links[i] in StoredLinks(g.key, s) && row.links[i].relation in g.allowed && row.links[i].scopeKey == g.key
      ensures row.links[i].source == row.nodes[i] && row.links[i].target == row.nodes[i + 1] && row.links[i].relationType == g.pattern[i]
    {
      assert p.relations[i] in s.edges;
    }
    assert GraphPathQuery.IsWanted(StoredLinks(g.key, s), g, row);
    assert GraphPathQuery.PathOf(row) == p by {
      assert Map(GraphPathQuery.NodeRevision, row.nodes) == p.nodes;
      assert Map(GraphPathQuery.LinkRelation, row.links) == p.relations;
      assert Map(GraphPathQuery.LinkType, row.links) == p.types;
    }
  }

  // ----- Main results -------------------------------------------------------------------------

  // When the result is an answer over the projected snapshot, every candidate is a
  // walk of the whole pattern in the snapshot that is still canonical afterwards: the
  // canonical edges have the pattern's types, each at its place.
  lemma CandidatesFollowThePattern(seal: Seal, q: Request, r: Reads, g: GraphPathQuery.Query, hash: GraphPathQuery.Hash,
                                   rows: seq<GraphPathQuery.Row>, late: bool, c: Candidate)
    requires SealOk(seal) && Sealed(seal, r.before) && (r.after.Some? ==> Sealed(seal, r.after.value))
    requires Answered(q, r, g, hash, rows, late) && c in Retrieve(q, r).candidates
    ensures r.after == Some(r.before)
    ensures PatternWalk(Pattern(q), q.starts, HitSet(r.hits), r.before, c.path)
  {
    CandidatesAreCanonicalWalks(seal, q, r, c);
    CandidateWasReturned(q, r, c);
    GraphPathQuery.AnswersAreWanted(StoredLinks(g.key, r.before), g, hash, rows, late, c.path);
    WantedIsPatternWalk(g, r.before, c.path);
  }

  lemma CandidateWasReturned(q: Request, r: Reads, c: Candidate)
    requires c in Retrieve(q, r).candidates
    ensures c.path in r.result.paths
  {
    JudgedOrNoCandidates(q, r);
    CandidatesAreOk(q, r, r.after.value, Allowed(q, r), r.result.paths, 0);
  }

  // A typed_path recall that is not marked truncated has found everything: its
  // candidates are exactly the walks of the pattern from the starts over the
  // prefiltered relations in the canonical snapshot, each of them once.
  lemma NotTruncatedFindsAllWalks(q: Request, r: Reads, g: GraphPathQuery.Query, hash: GraphPathQuery.Hash,
                                  rows: seq<GraphPathQuery.Row>, late: bool, p: Path)
    requires Answered(q, r, g, hash, rows, late) && g.mode == GraphPathQuery.TypedPath
    requires !Retrieve(q, r).truncated && q.starts != {} && q.maxDepth > 0 && r.hits != []
    ensures Distinct(Map(PathOfCandidate, Retrieve(q, r).candidates))
    ensures p in Map(PathOfCandidate, Retrieve(q, r).candidates) <==>
      PatternWalk(Pattern(q), q.starts, HitSet(r.hits), r.before, p)
  {
    NotTruncatedMeansWhole(q, r);
    AllowedAreHits(q, r);
    GraphPathQuery.TypedCompleteIsExact(StoredLinks(g.key, r.before), g, hash, rows, late);
    WantedIsPatternWalk(g, r.before, p);
  }

  // A shortest_path recall that is not marked truncated omits only walks that lose the
  // hash tie-break to every candidate, and only when it is full.
  lemma NotTruncatedOmitsOnlyTieLosers(q: Request, r: Reads, g: GraphPathQuery.Query, hash: GraphPathQuery.Hash,
                                       rows: seq<GraphPathQuery.Row>, late: bool, p: Path)
    requires Answered(q, r, g, hash, rows, late) && g.mode == GraphPathQuery.ShortestPath && GraphPathQuery.Injective(hash)
    requires !Retrieve(q, r).truncated && q.starts != {} && q.maxDepth > 0 && r.hits != []
    ensures var found := Map(PathOfCandidate, Retrieve(q, r).candidates);
      && (p in found ==> PatternWalk(Pattern(q), q.starts, HitSet(r.hits), r.before, p))
      && (PatternWalk(Pattern(q), q.starts, HitSet(r.hits), r.before, p) && p !in found ==>
            |found| == GraphPathQuery.RetainedLimit(g) && forall c :: c in Retrieve(q, r).candidates ==> hash(c.path) > hash(p))
  {
    NotTruncatedMeansWhole(q, r);
    AllowedAreHits(q, r);
    GraphPathQuery.ShortestOmitsOnlyTieLosers(StoredLinks(g.key, r.before), g, hash, rows, late, p);
    WantedIsPatternWalk(g, r.before, p);
    forall c | c in Retrieve(q, r).candidates ensures c.path in r.result.paths {
      MapHas(PathOfCandidate, Retrieve(q, r).candidates, c);
    }
  }

  lemma AllowedAreHits(q: Request, r: Reads)
    requires forall h :: h in r.hits ==> h in Allowed(q, r)
    ensures HitSet(Allowed(q, r)) == HitSet(r.hits)
  {
    LeqOrders();
    ArrangedFacts(Leq, HitSet(r.hits));
  }
}
