// queryPaths of the native graph adapter. The engine is seen only through the
// rows it returns for its MATCH ... LIMIT statement.
module GraphPathQuery {
  import opened Ordering

  datatype Node = Node(revision: nat, scopeKey: string)

  datatype Link = Link(source: Node, target: Node, relation: nat, relationType: nat, scopeKey: string)

  datatype Row = Row(nodes: seq<Node>, links: seq<Link>)

  datatype Mode = TypedPath | ShortestPath

  datatype Query = Query(
    key: string, mode: Mode, starts: set<nat>, allowed: set<nat>, pattern: seq<nat>, maxDepth: nat,
    maxFanout: nat, maxPaths: nat, maxResults: nat)

  // What the query schema guarantees.
  predicate QueryOk(q: Query) {
    && 1 <= |q.pattern| <= 4 && |q.pattern| <= q.maxDepth
    && q.starts != {} && 1 <= q.maxFanout
    && 1 <= q.maxResults <= q.maxPaths
  }

  function Min(a: nat, b: nat): nat { if a < b then a else b }

  function NativeLimit(q: Query): nat {
    Min(q.maxPaths + 1, Min(if q.mode == ShortestPath then q.maxPaths + 1 else q.maxResults + 1, q.maxFanout * |q.starts| + 1))
  }

  // ----- What the engine may answer -------------------------------------------------

  ghost predicate IsWalk(db: set<Link>, row: Row) {
    && |row.nodes| == |row.links| + 1
    && forall i :: 0 <= i < |row.links| ==>
         row.links[i] in db && row.links[i].source == row.nodes[i] && row.links[i].target == row.nodes[i + 1]
  }

  // A walk of the pattern's length from one of the starts, both ends in the scope.
  ghost predicate Native(db: set<Link>, q: Query, row: Row) {
    && IsWalk(db, row) && |row.links| == |q.pattern|
    && row.nodes[0].scopeKey == q.key && row.nodes[0].revision in q.starts
    && row.nodes[|row.nodes| - 1].scopeKey == q.key
  }

  // Whatever rows the LIMIT picks: all of them when there are fewer than the limit.
  ghost predicate NativeAnswer(db: set<Link>, q: Query, rows: seq<Row>) {
    && |rows| <= NativeLimit(q)
    && (forall r :: r in rows ==> Native(db, q, r))
    && (|rows| < NativeLimit(q) ==> forall r :: Native(db, q, r) ==> r in rows)
  }

  // ----- Paths ----------------------------------------------------------------------

  datatype Path = Path(nodes: seq<nat>, relations: seq<nat>, types: seq<nat>)

  function NodeRevision(n: Node): nat { n.revision }

  function LinkRelation(l: Link): nat { l.relation }

  function LinkType(l: Link): nat { l.relationType }

  function PathOf(row: Row): Path {
    Path(Map(NodeRevision, row.nodes), Map(LinkRelation, row.links), Map(LinkType, row.links))
  }

  predicate InScope(q: Query, row: Row) {
    && (forall n :: n in row.nodes ==> n.scopeKey == q.key)
    && (forall l :: l in row.links ==> l.scopeKey == q.key)
  }

  // The filter on a row.
  predicate Matches(q: Query, row: Row) {
    && |row.links| == |q.pattern| && |row.links| <= q.maxDepth
    && InScope(q, row)
    && (forall i :: 0 <= i < |row.links| ==> row.links[i].relationType == q.pattern[i])
    && (forall l :: l in row.links ==> l.relation in q.allowed)
  }

  // buildGraphPathEvidence refuses a repeated node or relation.
  predicate Buildable(p: Path) {
    && (forall i, j :: 0 <= i < j < |p.nodes| ==> p.nodes[i] != p.nodes[j])
    && (forall i, j :: 0 <= i < j < |p.relations| ==> p.relations[i] != p.relations[j])
  }

  // The path hash, as its place in the order of localeCompare. It is injective.
  type Hash = Path -> nat

  ghost predicate Injective(hash: Hash) {
    forall p, q :: hash(p) == hash(q) ==> p == q
  }

  // By hash; all paths of one answer have the same depth.
  function Ascending(hash: Hash): (Path, Path) -> bool {
    (a: Path, b: Path) => |a.relations| < |b.relations| || (|a.relations| == |b.relations| && hash(a) <= hash(b))
  }

  function Descending(hash: Hash): (Path, Path) -> bool {
    (a: Path, b: Path) => hash(a) >= hash(b)
  }

  // The order in which the answer keeps paths.
  function Preferred(q: Query, hash: Hash): (Path, Path) -> bool {
    if q.mode == TypedPath then Ascending(hash) else Descending(hash)
  }

  function MatchingPaths(q: Query, rows: seq<Row>): set<Path> {
    set r | r in rows && Matches(q, r) :: PathOf(r)
  }

  datatype Answer = Thrown | Answer(paths: seq<Path>, complete: bool, tieBroken: bool)

  function RetainedLimit(q: Query): nat { Min(q.maxPaths, q.maxResults) }

  predicate TieBroken(q: Query, observed: nat) {
    q.mode == ShortestPath && observed > RetainedLimit(q)
  }

  predicate Truncated(q: Query, rowCount: nat, observed: nat) {
    rowCount >= NativeLimit(q) || rowCount > q.maxPaths || (!TieBroken(q, observed) && observed > RetainedLimit(q))
  }

  // `late` says that the deadline passed while the query ran; the result schema
  // does not let such a result be complete.
  ghost function QueryPaths(q: Query, hash: Hash, rows: seq<Row>, late: bool): Answer {
    var found := MatchingPaths(q, rows);
    if exists p :: p in found && !Buildable(p) then Thrown
    else
      var paths := Arranged(Preferred(q, hash), found);
      var limit, truncated := RetainedLimit(q), Truncated(q, |rows|, |paths|);
      if late && !truncated then Thrown
      else Answer(if |paths| > limit then paths[..limit] else paths, !truncated, TieBroken(q, |paths|))
  }

  // ----- The procedure ----------------------------------------------------------------

  lemma PreferredOrders(q: Query, hash: Hash)
    ensures Preorder(Preferred(q, hash)) && Preorder(Ascending(hash))
  {
  }

  lemma PreferredSeparates(q: Query, hash: Hash, s: seq<Path>)
    requires Injective(hash)
    ensures Separates(Preferred(q, hash), s) && Separates(Ascending(hash), s)
  {
  }

  // The map from path hashes to paths, read off in some order.
  method UniquePaths(q: Query, hash: Hash, rows: seq<Row>) returns (thrown: bool, paths: seq<Path>)
    requires Injective(hash)
    ensures thrown <==> exists p :: p in MatchingPaths(q, rows) && !Buildable(p)
    ensures !thrown ==> Distinct(paths) && forall p :: p in paths <==> p in MatchingPaths(q, rows)
  {
    var unique: map<nat, Path> := map[];
    paths := [];
    thrown := false;
    for i := 0 to |rows|
      invariant !thrown && Distinct(paths)
      invariant forall p :: p in MatchingPaths(q, rows[..i]) ==> Buildable(p)
      invariant forall p :: p in paths <==> p in MatchingPaths(q, rows[..i])
      invariant forall h :: h in unique <==> exists p :: p in paths && hash(p) == h
    {
      assert rows[..i + 1] == rows[..i] + [rows[i]];
      if Matches(q, rows[i]) {
        var path := PathOf(rows[i]);
        assert path in MatchingPaths(q, rows) && path in MatchingPaths(q, rows[..i + 1]);
        if !Buildable(path) {
          return true, [];
        }
        if hash(path) !in unique {
          assert path !in paths;
          paths := paths + [path];
        }
        unique := unique[hash(path) := path];
      }
    }
    assert rows[..|rows|] == rows;
  }

  // By depth and hash; the shortest, from the greatest hash down, in shortest_path mode.
  method OrderPaths(q: Query, hash: Hash, unique: seq<Path>, ghost found: set<Path>) returns (paths: seq<Path>)
    requires Injective(hash) && Distinct(unique) && forall p :: p in unique <==> p in found
    requires forall p :: p in found ==> |p.relations| == |q.pattern|
    ensures paths == Arranged(Preferred(q, hash), found)
  {
    PreferredOrders(q, hash);
    PreferredSeparates(q, hash, unique);
    SortKeepsMembers(Ascending(hash), unique);
    paths := Sort(Ascending(hash), unique);
    if q.mode == TypedPath {
      SortArranges(Preferred(q, hash), unique, found);
    } else if paths == [] {
      ArrangedFacts(Preferred(q, hash), found);
      assert found == {};
    } else {
      var shortest := |paths[0].relations|;
      assert paths[0] in paths;
      FilterAll((p: Path) => |p.relations| == shortest, paths);
      SortArranges(Preferred(q, hash), paths, found);
      paths := Sort(Descending(hash), Filter((p: Path) => |p.relations| == shortest, paths));
    }
  }

  method QueryPathsOnce(q: Query, hash: Hash, rows: seq<Row>, late: bool) returns (answer: Answer)
    requires QueryOk(q) && Injective(hash)
    ensures answer == QueryPaths(q, hash, rows, late)
  {
    var thrown, unique := UniquePaths(q, hash, rows);
    if thrown {
      return Thrown;
    }
    FoundDepth(q, rows);
    var paths := OrderPaths(q, hash, unique, MatchingPaths(q, rows));
    var observed := |paths|;
    var limit := RetainedLimit(q);
    var tieBroken := TieBroken(q, observed);
    var truncated := |rows| >= NativeLimit(q) || |rows| > q.maxPaths || (!tieBroken && observed > limit);
    if late && !truncated {
      return Thrown;
    }
    answer := Answer(if observed > limit then paths[..limit] else paths, !truncated, tieBroken);
  }

  lemma SortKeepsMembers(leq: (Path, Path) -> bool, s: seq<Path>)
    ensures forall p :: p in Sort(leq, s) <==> p in s
    ensures Distinct(s) ==> Distinct(Sort(leq, s))
  {
    SameMembers(s, Sort(leq, s));
    DistinctMultiset(s);
    DistinctMultiset(Sort(leq, s));
  }

  lemma FoundDepth(q: Query, rows: seq<Row>)
    ensures forall p :: p in MatchingPaths(q, rows) ==> |p.relations| == |q.pattern|
  {
  }

  // ----- What an answer means -----------------------------------------------------------

  // The walks the query asks for: of the pattern's length, from a start, in the
  // scope at every node and link, typed by the pattern, over allowed relations.
  ghost predicate Wanted(db: set<Link>, q: Query, p: Path) {
    exists r :: IsWanted(db, q, r) && PathOf(r) == p
  }

  ghost predicate IsWanted(db: set<Link>, q: Query, r: Row) {
    && IsWalk(db, r) && |r.links| == |q.pattern|
    && r.nodes[0].revision in q.starts
    && InScope(q, r)
    && (forall i :: 0 <= i < |r.links| ==> r.links[i].relationType == q.pattern[i])
    && (forall l :: l in r.links ==> l.relation in q.allowed)
  }

  lemma WantedRows(db: set<Link>, q: Query, r: Row)
    requires QueryOk(q)
    ensures IsWanted(db, q, r) <==> Native(db, q, r) && Matches(q, r)
  {
    if IsWanted(db, q, r) {
      assert r.nodes[0] in r.nodes && r.nodes[|r.nodes| - 1] in r.nodes;
    }
  }

  lemma FoundAreWanted(db: set<Link>, q: Query, rows: seq<Row>)
    requires QueryOk(q) && NativeAnswer(db, q, rows)
    ensures forall p :: p in MatchingPaths(q, rows) ==> Wanted(db, q, p)
    ensures |rows| < NativeLimit(q) ==> forall p :: Wanted(db, q, p) ==> p in MatchingPaths(q, rows)
  {
    forall p | p in MatchingPaths(q, rows) ensures Wanted(db, q, p) {
      var r :| r in rows && Matches(q, r) && PathOf(r) == p;
      WantedRows(db, q, r);
    }
    if |rows| < NativeLimit(q) {
      forall p | Wanted(db, q, p) ensures p in MatchingPaths(q, rows) {
        var r :| IsWanted(db, q, r) && PathOf(r) == p;
        WantedRows(db, q, r);
      }
    }
  }

  lemma {:induction false} FoundCount(q: Query, rows: seq<Row>)
    ensures |MatchingPaths(q, rows)| <= |rows|
  {
    if rows == [] {
      assert MatchingPaths(q, rows) == {};
    } else {
      FoundCount(q, rows[1..]);
      var first: set<Path> := if Matches(q, rows[0]) then {PathOf(rows[0])} else {};
      assert MatchingPaths(q, rows) == first + MatchingPaths(q, rows[1..]);
    }
  }

  lemma TruncatedExactly(q: Query, hash: Hash, rows: seq<Row>)
    requires QueryOk(q)
    ensures Truncated(q, |rows|, |Arranged(Preferred(q, hash), MatchingPaths(q, rows))|) <==> |rows| >= NativeLimit(q)
  {
    PreferredOrders(q, hash);
    ArrangedFacts(Preferred(q, hash), MatchingPaths(q, rows));
    FoundCount(q, rows);
  }

  // The flag says exactly that the engine returned fewer rows than its limit.
  lemma CompleteExactly(q: Query, hash: Hash, rows: seq<Row>, late: bool)
    requires QueryOk(q) && QueryPaths(q, hash, rows, late).Answer?
    ensures QueryPaths(q, hash, rows, late).complete <==> |rows| < NativeLimit(q)
  {
    TruncatedExactly(q, hash, rows);
  }

  // In numbers: an answer is complete exactly when the engine returned no more rows than
  // maxPaths, than maxFanout for each start, and in typed_path mode than maxResults.
  lemma CompleteInNumbers(q: Query, hash: Hash, rows: seq<Row>, late: bool)
    requires 1 <= |q.pattern| <= 4 && |q.pattern| <= q.maxDepth && 0 < |q.starts| && 0 < q.maxFanout && 0 < q.maxResults <= q.maxPaths
    requires QueryPaths(q, hash, rows, late).Answer?
    ensures QueryPaths(q, hash, rows, late).complete <==>
      |rows| <= q.maxPaths && |rows| <= q.maxFanout * |q.starts| && (q.mode == TypedPath ==> |rows| <= q.maxResults)
  {
    CompleteExactly(q, hash, rows, late);
  }

  // So a graph with no more walks than that always gets a complete answer.
  lemma FewWalksAreComplete(db: set<Link>, q: Query, hash: Hash, rows: seq<Row>, late: bool, walks: set<Row>)
    requires 1 <= |q.pattern| <= 4 && |q.pattern| <= q.maxDepth && 0 < |q.starts| && 0 < q.maxFanout && 0 < q.maxResults <= q.maxPaths
    requires NativeAnswer(db, q, rows) && Distinct(rows) && QueryPaths(q, hash, rows, late).Answer?
    requires forall r :: Native(db, q, r) ==> r in walks
    requires |walks| <= q.maxPaths && |walks| <= q.maxFanout * |q.starts| && (q.mode == TypedPath ==> |walks| <= q.maxResults)
    ensures QueryPaths(q, hash, rows, late).complete
  {
    DistinctWithin(rows, walks);
    CompleteInNumbers(q, hash, rows, late);
  }

  lemma {:induction false} DistinctWithin(rows: seq<Row>, walks: set<Row>)
    requires Distinct(rows) && forall r :: r in rows ==> r in walks
    ensures |rows| <= |walks|
    decreases |rows|
  {
    if rows != [] {
      assert rows[0] !in rows[1..];
      DistinctWithin(rows[1..], walks - {rows[0]});
    }
  }

  // The order of an answer: by hash, from the smallest up in typed_path mode and from
  // the greatest down in shortest_path mode; never more paths than maxPaths and
  // maxResults allow.
  lemma AnswerInNumbers(q: Query, hash: Hash, rows: seq<Row>, late: bool)
    requires 1 <= |q.pattern| <= 4 && |q.pattern| <= q.maxDepth && 0 < |q.starts| && 0 < q.maxFanout && 0 < q.maxResults <= q.maxPaths
    requires QueryPaths(q, hash, rows, late).Answer?
    ensures var a := QueryPaths(q, hash, rows, late);
      && |a.paths| <= q.maxPaths && |a.paths| <= q.maxResults
      && (forall p :: p in a.paths ==> |p.relations| == |q.pattern| && Distinct(p.nodes) && Distinct(p.relations))
      && (forall j, k :: 0 <= j < k < |a.paths| ==>
            if q.mode == TypedPath then hash(a.paths[j]) <= hash(a.paths[k]) else hash(a.paths[j]) >= hash(a.paths[k]))
  {
    var all := Arranged(Preferred(q, hash), MatchingPaths(q, rows));
    PreferredOrders(q, hash);
    ArrangedFacts(Preferred(q, hash), MatchingPaths(q, rows));
    FoundDepth(q, rows);
    forall j, k | 0 <= j < k < |all|
      ensures if q.mode == TypedPath then hash(all[j]) <= hash(all[k]) else hash(all[j]) >= hash(all[k])
    {
      assert Preferred(q, hash)(all[j], all[k]) && all[j] in all && all[k] in all;
    }
  }

  // Complete or not, an answer holds wanted walks only.
  lemma AnswersAreWanted(db: set<Link>, q: Query, hash: Hash, rows: seq<Row>, late: bool, p: Path)
    requires QueryOk(q) && NativeAnswer(db, q, rows)
    requires var a := QueryPaths(q, hash, rows, late); a.Answer? && p in a.paths
    ensures Wanted(db, q, p)
  {
    FoundAreWanted(db, q, rows);
    PreferredOrders(q, hash);
    ArrangedFacts(Preferred(q, hash), MatchingPaths(q, rows));
  }

  // A complete typed_path answer is exactly the set of wanted walks, whatever rows
  // the engine's LIMIT picked.
  lemma TypedCompleteIsExact(db: set<Link>, q: Query, hash: Hash, rows: seq<Row>, late: bool)
    requires QueryOk(q) && NativeAnswer(db, q, rows) && q.mode == TypedPath
    requires var a := QueryPaths(q, hash, rows, late); a.Answer? && a.complete
    ensures forall p :: p in QueryPaths(q, hash, rows, late).paths <==> Wanted(db, q, p)
    ensures Distinct(QueryPaths(q, hash, rows, late).paths)
  {
    CompleteExactly(q, hash, rows, late);
    FoundAreWanted(db, q, rows);
    PreferredOrders(q, hash);
    ArrangedFacts(Preferred(q, hash), MatchingPaths(q, rows));
    FoundCount(q, rows);
  }

  // A complete shortest_path answer holds only wanted walks, and all of them unless
  // it is full; what it then leaves out loses the hash tie-break to every retained.
  lemma ShortestOmitsOnlyTieLosers(db: set<Link>, q: Query, hash: Hash, rows: seq<Row>, late: bool, p: Path)
    requires QueryOk(q) && NativeAnswer(db, q, rows) && q.mode == ShortestPath && Injective(hash)
    requires var a := QueryPaths(q, hash, rows, late); a.Answer? && a.complete
    ensures var a := QueryPaths(q, hash, rows, late);
      && (p in a.paths ==> Wanted(db, q, p))
      && (Wanted(db, q, p) && p !in a.paths ==>
            && |a.paths| == RetainedLimit(q) && a.tieBroken
            && forall k :: k in a.paths ==> hash(k) > hash(p))
  {
    CompleteExactly(q, hash, rows, late);
    FoundAreWanted(db, q, rows);
    PreferredOrders(q, hash);
    var all := Arranged(Preferred(q, hash), MatchingPaths(q, rows));
    ArrangedFacts(Preferred(q, hash), MatchingPaths(q, rows));
    if Wanted(db, q, p) && |all| > RetainedLimit(q) && p !in all[..RetainedLimit(q)] {
      LoserIsLater(hash, all, RetainedLimit(q), p);
    }
  }

  lemma LoserIsLater(hash: Hash, all: seq<Path>, limit: nat, p: Path)
    requires SortedBy(Descending(hash), all) && Injective(hash) && limit < |all|
    requires p in all && p !in all[..limit]
    ensures forall k :: k in all[..limit] ==> hash(k) > hash(p)
  {
    var j :| 0 <= j < |all| && all[j] == p;
    assert j >= limit;
    forall k | k in all[..limit] ensures hash(k) > hash(p) {
      var i :| 0 <= i < limit && all[..limit][i] == k;
      assert Descending(hash)(all[i], all[j]);
    }
  }

  // Two complete answers to one query are the same, in either mode.
  lemma CompleteAnswersAgree(db: set<Link>, q: Query, hash: Hash, a: seq<Row>, b: seq<Row>, late: bool)
    requires QueryOk(q) && NativeAnswer(db, q, a) && NativeAnswer(db, q, b)
    requires QueryPaths(q, hash, a, late).Answer? && QueryPaths(q, hash, a, late).complete
    requires QueryPaths(q, hash, b, late).Answer? && QueryPaths(q, hash, b, late).complete
    ensures QueryPaths(q, hash, a, late) == QueryPaths(q, hash, b, late)
  {
    CompleteExactly(q, hash, a, late);
    CompleteExactly(q, hash, b, late);
    FoundAreWanted(db, q, a);
    FoundAreWanted(db, q, b);
    assert MatchingPaths(q, a) == MatchingPaths(q, b);
  }

  // A row that repeats the revision of a node or a relation.
  ghost predicate Repeats(r: Row) {
    !Distinct(Map(NodeRevision, r.nodes)) || !Distinct(Map(LinkRelation, r.links))
  }

  ghost predicate RepeatsOnMatch(q: Query, rows: seq<Row>) {
    exists r :: r in rows && Matches(q, r) && Repeats(r)
  }

  lemma UnbuildableFound(q: Query, rows: seq<Row>)
    ensures (exists p :: p in MatchingPaths(q, rows) && !Buildable(p)) <==> RepeatsOnMatch(q, rows)
  {
    if RepeatsOnMatch(q, rows) {
      var r :| r in rows && Matches(q, r) && Repeats(r);
      assert PathOf(r) in MatchingPaths(q, rows);
    }
  }

  // A query throws exactly when a matching row repeats a node or a relation, or
  // when it would be complete and the deadline has passed.
  lemma ThrowsExactly(q: Query, hash: Hash, rows: seq<Row>, late: bool)
    requires QueryOk(q)
    ensures QueryPaths(q, hash, rows, late).Thrown? <==> RepeatsOnMatch(q, rows) || (late && |rows| < NativeLimit(q))
  {
    UnbuildableFound(q, rows);
    TruncatedExactly(q, hash, rows);
  }
}
