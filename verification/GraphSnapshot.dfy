// Canonical graph snapshots and their digests.
module GraphSnapshot {
  import opened Ordering
  import opened JsonText
  import opened CanonicalJson
  import opened CanonicalText

  // ----- The order of JavaScript strings ----------------------------------------------

  // `<=` on strings: lexicographic by code unit.
  predicate TextLeq(s: Text, t: Text) {
    s == [] || (t != [] && (s[0] < t[0] || (s[0] == t[0] && TextLeq(s[1..], t[1..]))))
  }

  lemma {:induction false} TextLeqTotal(s: Text, t: Text)
    ensures TextLeq(s, t) || TextLeq(t, s)
    ensures TextLeq(s, t) && TextLeq(t, s) ==> s == t
  {
    if s != [] && t != [] && s[0] == t[0] {
      TextLeqTotal(s[1..], t[1..]);
      assert s == [s[0]] + s[1..] && t == [t[0]] + t[1..];
    }
  }

  lemma {:induction false} TextLeqTransitive(s: Text, t: Text, u: Text)
    requires TextLeq(s, t) && TextLeq(t, u)
    ensures TextLeq(s, u)
  {
    if s != [] && s[0] == t[0] && t[0] == u[0] { TextLeqTransitive(s[1..], t[1..], u[1..]); }
  }

  lemma TextLeqOrders()
    ensures Preorder(TextLeq)
  {
    forall s, t ensures TextLeq(s, t) || TextLeq(t, s) { TextLeqTotal(s, t); }
    forall s, t, u | TextLeq(s, t) && TextLeq(t, u) ensures TextLeq(s, u) { TextLeqTransitive(s, t, u); }
  }

  // ----- Nodes, edges and snapshots -----------------------------------------------------

  datatype Epochs = Epochs(ledger: nat, tombstone: nat, projection: nat, transformName: Text, transformVersion: Text)

  // `body` is everything that no check looks at. Scopes stand for their keys.
  datatype Node = Node(
    id: Text, revision: Text, projectionRevision: Option<Text>, projectionType: Option<nat>, abstraction: Text,
    principal: Text, scope: Text, epochs: Epochs, evidence: seq<Text>, lineage: seq<Text>, body: nat)

  datatype Edge = Edge(
    id: Text, relationRevision: Text, relationType: Text, source: Text, target: Text,
    principal: Text, scope: Text, epochs: Epochs, evidence: seq<Text>, lineage: seq<Text>, body: nat)

  datatype Input = Input(
    version: Text, backend: Text, principal: Text, scope: Text, frontier: Epochs, frontierBody: nat,
    nodes: seq<Node>, edges: seq<Edge>)

  datatype Snapshot = Snapshot(content: Input, digest: nat)

  // What the checks depend on beside the snapshot: how object keys are arranged in
  // texts, the digest, the abstraction that a projection type belongs to, and the
  // name of the L1 abstraction.
  datatype World = World(keys: Arrangement, digest: Input -> nat, abstractionOf: nat -> Text, l1: Text)

  ghost predicate WorldOk(w: World) {
    Arranges(w.keys)
  }

  predicate Unique(s: seq<Text>) {
    forall i, j :: 0 <= i < j < |s| ==> s[i] != s[j]
  }

  // The order check compares neighbours.
  predicate InOrder(s: seq<Text>) {
    forall i :: 0 < i < |s| ==> TextLeq(s[i - 1], s[i])
  }

  predicate ListOk(s: seq<Text>) {
    s != [] && Unique(s) && InOrder(s)
  }

  predicate NodeOk(w: World, n: Node) {
    && (n.projectionType.None? ==> n.projectionRevision.None? && n.abstraction == w.l1)
    && (n.projectionType.Some? ==> n.projectionRevision.Some? && w.abstractionOf(n.projectionType.value) == n.abstraction)
    && ListOk(n.evidence) && ListOk(n.lineage)
  }

  predicate EdgeOk(e: Edge) {
    e.source != e.target && ListOk(e.evidence) && ListOk(e.lineage)
  }

  function TextArray(items: seq<Text>): Json {
    JArr(seq(|items|, i requires 0 <= i < |items| => JStr(items[i])))
  }

  function NodeKey(w: World, n: Node): Text {
    Print(w.keys, TextArray([n.abstraction, if n.projectionRevision.Some? then n.projectionRevision.value else [], n.revision, n.id]))
  }

  function EdgeKey(w: World, e: Edge): Text {
    Print(w.keys, TextArray([e.relationType, e.relationRevision, e.id]))
  }

  function NodeLeq(w: World): (Node, Node) -> bool {
    (m: Node, n: Node) => TextLeq(NodeKey(w, m), NodeKey(w, n))
  }

  function EdgeLeq(w: World): (Edge, Edge) -> bool {
    (d: Edge, e: Edge) => TextLeq(EdgeKey(w, d), EdgeKey(w, e))
  }

  function NodeIds(s: seq<Node>): seq<Text> { seq(|s|, i requires 0 <= i < |s| => s[i].id) }

  function NodeRevisions(s: seq<Node>): seq<Text> { seq(|s|, i requires 0 <= i < |s| => s[i].revision) }

  function EdgeIds(s: seq<Edge>): seq<Text> { seq(|s|, i requires 0 <= i < |s| => s[i].id) }

  function EdgeRevisions(s: seq<Edge>): seq<Text> { seq(|s|, i requires 0 <= i < |s| => s[i].relationRevision) }

  function NodeKeys(w: World, s: seq<Node>): seq<Text> { seq(|s|, i requires 0 <= i < |s| => NodeKey(w, s[i])) }

  function EdgeKeys(w: World, s: seq<Edge>): seq<Text> { seq(|s|, i requires 0 <= i < |s| => EdgeKey(w, s[i])) }

  predicate InScope(x: Input, principal: Text, scope: Text, epochs: Epochs) {
    principal == x.principal && scope == x.scope && epochs == x.frontier
  }

  // The checks that do not look at the order.
  predicate Sound(w: World, x: Input) {
    && (forall n :: n in x.nodes ==> NodeOk(w, n) && InScope(x, n.principal, n.scope, n.epochs))
    && (forall e :: e in x.edges ==> EdgeOk(e) && InScope(x, e.principal, e.scope, e.epochs))
    && (forall e :: e in x.edges ==> e.source in NodeRevisions(x.nodes) && e.target in NodeRevisions(x.nodes))
    && Unique(NodeIds(x.nodes)) && Unique(NodeRevisions(x.nodes))
    && Unique(EdgeIds(x.edges)) && Unique(EdgeRevisions(x.edges))
  }

  // The snapshot schema, with the order and the digest.
  predicate SnapshotOk(w: World, s: Snapshot) {
    && Sound(w, s.content)
    && InOrder(NodeKeys(w, s.content.nodes)) && InOrder(EdgeKeys(w, s.content.edges))
    && s.digest == w.digest(s.content)
  }

  // The input schema: only the nodes and edges themselves.
  predicate InputOk(w: World, x: Input) {
    (forall n :: n in x.nodes ==> NodeOk(w, n)) && (forall e :: e in x.edges ==> EdgeOk(e))
  }

  function CanonicalNode(n: Node): Node {
    n.(evidence := Sort(TextLeq, n.evidence), lineage := Sort(TextLeq, n.lineage))
  }

  function CanonicalEdge(e: Edge): Edge {
    e.(evidence := Sort(TextLeq, e.evidence), lineage := Sort(TextLeq, e.lineage))
  }

  function Canonical(w: World, x: Input): Input {
    x.(nodes := Sort(NodeLeq(w), Map(CanonicalNode, x.nodes)), edges := Sort(EdgeLeq(w), Map(CanonicalEdge, x.edges)))
  }

  // buildGraphScopeSnapshot, which is also what normalizing does once the digest of
  // its argument is taken off.
  function Build(w: World, x: Input): Option<Snapshot> {
    if !InputOk(w, x) then None
    else
      var s := Snapshot(Canonical(w, x), w.digest(Canonical(w, x)));
      if SnapshotOk(w, s) then Some(s) else None
  }

  // ----- Canonical lists stay as they are -------------------------------------------------

  lemma {:induction false} InOrderSorted(s: seq<Text>)
    requires InOrder(s)
    ensures SortedBy(TextLeq, s)
    decreases |s|
  {
    TextLeqOrders();
    if s != [] {
      var front := s[..|s| - 1];
      InOrderSorted(front);
      forall i, j | 0 <= i < j < |s| ensures TextLeq(s[i], s[j]) {
        if j < |s| - 1 {
          assert TextLeq(front[i], front[j]);
        } else if i < j - 1 {
          assert TextLeq(front[i], front[j - 1]);
          TextLeqTransitive(s[i], s[j - 1], s[j]);
        }
      }
    }
  }

  lemma OkListStays(s: seq<Text>)
    requires ListOk(s)
    ensures Sort(TextLeq, s) == s
  {
    InOrderSorted(s);
    SortFixed(TextLeq, s);
  }

  lemma CanonicalStays(w: World, x: Input)
    requires InputOk(w, x)
    ensures Map(CanonicalNode, x.nodes) == x.nodes && Map(CanonicalEdge, x.edges) == x.edges
  {
    forall i | 0 <= i < |x.nodes| ensures CanonicalNode(x.nodes[i]) == x.nodes[i] {
      assert x.nodes[i] in x.nodes;
      OkListStays(x.nodes[i].evidence);
      OkListStays(x.nodes[i].lineage);
    }
    forall i | 0 <= i < |x.edges| ensures CanonicalEdge(x.edges[i]) == x.edges[i] {
      assert x.edges[i] in x.edges;
      OkListStays(x.edges[i].evidence);
      OkListStays(x.edges[i].lineage);
    }
  }

  // ----- Keys are unambiguous ---------------------------------------------------------------

  lemma TextArrayInjective(a: Arrangement, s: seq<Text>, t: seq<Text>)
    requires Arranges(a) && Print(a, TextArray(s)) == Print(a, TextArray(t))
    ensures s == t
  {
    SameTextSamePlain(a, TextArray(s), TextArray(t));
    assert Plain(TextArray(s)) == TextArray(s) && Plain(TextArray(t)) == TextArray(t);
    assert |s| == |TextArray(s).items| == |TextArray(t).items| == |t|;
    forall i | 0 <= i < |s| ensures s[i] == t[i] {
      assert TextArray(s).items[i] == TextArray(t).items[i];
    }
  }

  lemma NodeLeqOrders(w: World)
    ensures Preorder(NodeLeq(w))
  {
    forall m, n ensures NodeLeq(w)(m, n) || NodeLeq(w)(n, m) { TextLeqTotal(NodeKey(w, m), NodeKey(w, n)); }
    forall l, m, n | NodeLeq(w)(l, m) && NodeLeq(w)(m, n) ensures NodeLeq(w)(l, n) {
      TextLeqTransitive(NodeKey(w, l), NodeKey(w, m), NodeKey(w, n));
    }
  }

  lemma EdgeLeqOrders(w: World)
    ensures Preorder(EdgeLeq(w))
  {
    forall m, n ensures EdgeLeq(w)(m, n) || EdgeLeq(w)(n, m) { TextLeqTotal(EdgeKey(w, m), EdgeKey(w, n)); }
    forall l, m, n | EdgeLeq(w)(l, m) && EdgeLeq(w)(m, n) ensures EdgeLeq(w)(l, n) {
      TextLeqTransitive(EdgeKey(w, l), EdgeKey(w, m), EdgeKey(w, n));
    }
  }

  lemma NodesSeparate(w: World, s: seq<Node>)
    requires WorldOk(w) && Unique(NodeIds(s))
    ensures Separates(NodeLeq(w), s)
  {
    forall m, n | m in s && n in s && NodeLeq(w)(m, n) && NodeLeq(w)(n, m) ensures m == n {
      TextLeqTotal(NodeKey(w, m), NodeKey(w, n));
      TextArrayInjective(w.keys,
        [m.abstraction, if m.projectionRevision.Some? then m.projectionRevision.value else [], m.revision, m.id],
        [n.abstraction, if n.projectionRevision.Some? then n.projectionRevision.value else [], n.revision, n.id]);
      assert [m.abstraction, if m.projectionRevision.Some? then m.projectionRevision.value else [], m.revision, m.id][3] == m.id;
      var i :| 0 <= i < |s| && s[i] == m;
      var j :| 0 <= j < |s| && s[j] == n;
      assert NodeIds(s)[i] == NodeIds(s)[j];
    }
  }

  lemma EdgesSeparate(w: World, s: seq<Edge>)
    requires WorldOk(w) && Unique(EdgeIds(s))
    ensures Separates(EdgeLeq(w), s)
  {
    forall m, n | m in s && n in s && EdgeLeq(w)(m, n) && EdgeLeq(w)(n, m) ensures m == n {
      TextLeqTotal(EdgeKey(w, m), EdgeKey(w, n));
      TextArrayInjective(w.keys, [m.relationType, m.relationRevision, m.id], [n.relationType, n.relationRevision, n.id]);
      assert [m.relationType, m.relationRevision, m.id][2] == m.id;
      var i :| 0 <= i < |s| && s[i] == m;
      var j :| 0 <= j < |s| && s[j] == n;
      assert EdgeIds(s)[i] == EdgeIds(s)[j];
    }
  }

  // ----- The checks do not depend on the order ------------------------------------------------

  lemma UniqueForgetsOrder<T>(f: T -> Text, s: seq<T>, t: seq<T>)
    requires multiset(s) == multiset(t)
    ensures Unique(Map(f, s)) <==> Unique(Map(f, t))
  {
    MapMultiset(f, s, t);
    DistinctMultiset(Map(f, s));
    DistinctMultiset(Map(f, t));
  }

  function IdOfNode(n: Node): Text { n.id }

  function RevisionOfNode(n: Node): Text { n.revision }

  function IdOfEdge(e: Edge): Text { e.id }

  function RevisionOfEdge(e: Edge): Text { e.relationRevision }

  lemma NodeListsForgetOrder(s: seq<Node>, t: seq<Node>)
    requires multiset(s) == multiset(t)
    ensures Unique(NodeIds(s)) <==> Unique(NodeIds(t))
    ensures Unique(NodeRevisions(s)) <==> Unique(NodeRevisions(t))
    ensures forall r :: r in NodeRevisions(s) <==> r in NodeRevisions(t)
  {
    UniqueForgetsOrder(IdOfNode, s, t);
    UniqueForgetsOrder(RevisionOfNode, s, t);
    assert Map(IdOfNode, s) == NodeIds(s) && Map(IdOfNode, t) == NodeIds(t);
    assert Map(RevisionOfNode, s) == NodeRevisions(s) && Map(RevisionOfNode, t) == NodeRevisions(t);
    MapMultiset(RevisionOfNode, s, t);
    SameMembers(NodeRevisions(s), NodeRevisions(t));
  }

  lemma EdgeListsForgetOrder(s: seq<Edge>, t: seq<Edge>)
    requires multiset(s) == multiset(t)
    ensures Unique(EdgeIds(s)) <==> Unique(EdgeIds(t))
    ensures Unique(EdgeRevisions(s)) <==> Unique(EdgeRevisions(t))
  {
    UniqueForgetsOrder(IdOfEdge, s, t);
    UniqueForgetsOrder(RevisionOfEdge, s, t);
    assert Map(IdOfEdge, s) == EdgeIds(s) && Map(IdOfEdge, t) == EdgeIds(t);
    assert Map(RevisionOfEdge, s) == EdgeRevisions(s) && Map(RevisionOfEdge, t) == EdgeRevisions(t);
  }

  // The same nodes and edges in another arrangement.
  ghost predicate Permuted(x: Input, y: Input) {
    && multiset(x.nodes) == multiset(y.nodes) && multiset(x.edges) == multiset(y.edges)
    && y == x.(nodes := y.nodes, edges := y.edges)
  }

  lemma SoundForgetsOrder(w: World, x: Input, y: Input)
    requires Permuted(x, y)
    ensures Sound(w, x) <==> Sound(w, y)
    ensures InputOk(w, x) <==> InputOk(w, y)
  {
    NodeListsForgetOrder(x.nodes, y.nodes);
    EdgeListsForgetOrder(x.edges, y.edges);
    SameMembers(x.nodes, y.nodes);
    SameMembers(x.edges, y.edges);
  }

  lemma CanonicalIsPermuted(w: World, x: Input)
    requires InputOk(w, x)
    ensures Permuted(x, Canonical(w, x))
  {
    CanonicalStays(w, x);
  }

  lemma SortedKeysInOrder(w: World, x: Input)
    ensures InOrder(NodeKeys(w, Canonical(w, x).nodes)) && InOrder(EdgeKeys(w, Canonical(w, x).edges))
  {
    NodeLeqOrders(w);
    EdgeLeqOrders(w);
    SortSorts(NodeLeq(w), Map(CanonicalNode, x.nodes));
    SortSorts(EdgeLeq(w), Map(CanonicalEdge, x.edges));
    var nodes, edges := Canonical(w, x).nodes, Canonical(w, x).edges;
    forall i | 0 < i < |nodes| ensures TextLeq(NodeKey(w, nodes[i - 1]), NodeKey(w, nodes[i])) {
      assert NodeLeq(w)(nodes[i - 1], nodes[i]);
    }
    forall i | 0 < i < |edges| ensures TextLeq(EdgeKey(w, edges[i - 1]), EdgeKey(w, edges[i])) {
      assert EdgeLeq(w)(edges[i - 1], edges[i]);
    }
  }

  // ----- Building -----------------------------------------------------------------------------

  // A snapshot can be built exactly when the input is sound; the order and digest
  // checks on the result never fail.
  lemma BuildExactly(w: World, x: Input)
    ensures Build(w, x).Some? <==> Sound(w, x)
    ensures Build(w, x).Some? ==> SnapshotOk(w, Build(w, x).value)
  {
    if InputOk(w, x) {
      CanonicalIsPermuted(w, x);
      SoundForgetsOrder(w, x, Canonical(w, x));
      SortedKeysInOrder(w, x);
    }
  }

  // Every arrangement of the same nodes and edges gives one snapshot, or none.
  lemma BuildForgetsOrder(w: World, x: Input, y: Input)
    requires WorldOk(w) && Permuted(x, y)
    ensures Build(w, x) == Build(w, y)
  {
    BuildExactly(w, x);
    BuildExactly(w, y);
    SoundForgetsOrder(w, x, y);
    if Sound(w, x) { SameCanonical(w, x, y); }
  }

  lemma SameCanonical(w: World, x: Input, y: Input)
    requires WorldOk(w) && Permuted(x, y) && Sound(w, x) && Sound(w, y)
    ensures Canonical(w, x) == Canonical(w, y)
  {
    CanonicalStays(w, x);
    CanonicalStays(w, y);
    NodeLeqOrders(w);
    EdgeLeqOrders(w);
    NodesSeparate(w, x.nodes);
    EdgesSeparate(w, x.edges);
    SortForgetsOrder(NodeLeq(w), x.nodes, y.nodes);
    SortForgetsOrder(EdgeLeq(w), x.edges, y.edges);
  }

  // A snapshot that passes the schema is what building makes of its own content: so
  // normalizing is idempotent, and the schema accepts nothing but normal forms.
  lemma NormalizeFixesSnapshots(w: World, s: Snapshot)
    requires SnapshotOk(w, s)
    ensures Build(w, s.content) == Some(s)
  {
    BuildExactly(w, s.content);
    CanonicalStays(w, s.content);
    NodesInOrderSorted(w, s.content.nodes);
    EdgesInOrderSorted(w, s.content.edges);
    SortFixed(NodeLeq(w), s.content.nodes);
    SortFixed(EdgeLeq(w), s.content.edges);
    assert Canonical(w, s.content) == s.content;
  }

  lemma NodesInOrderSorted(w: World, s: seq<Node>)
    requires InOrder(NodeKeys(w, s))
    ensures SortedBy(NodeLeq(w), s)
  {
    InOrderSorted(NodeKeys(w, s));
    forall i, j | 0 <= i < j < |s| ensures NodeLeq(w)(s[i], s[j]) {
      assert TextLeq(NodeKeys(w, s)[i], NodeKeys(w, s)[j]);
    }
  }

  lemma EdgesInOrderSorted(w: World, s: seq<Edge>)
    requires InOrder(EdgeKeys(w, s))
    ensures SortedBy(EdgeLeq(w), s)
  {
    InOrderSorted(EdgeKeys(w, s));
    forall i, j | 0 <= i < j < |s| ensures EdgeLeq(w)(s[i], s[j]) {
      assert TextLeq(EdgeKeys(w, s)[i], EdgeKeys(w, s)[j]);
    }
  }

  lemma NormalizeIdempotent(w: World, x: Input)
    requires Build(w, x).Some?
    ensures Build(w, Build(w, x).value.content) == Build(w, x)
  {
    BuildExactly(w, x);
    NormalizeFixesSnapshots(w, Build(w, x).value);
  }

  // ----- The global digest ------------------------------------------------------------------------

  function Identity(w: World, s: Snapshot): Text {
    Print(w.keys, TextArray([s.content.backend, s.content.principal, s.content.scope]))
  }

  // The order of localeCompare, which tells different identities apart.
  ghost predicate LocaleOk(locale: (Text, Text) -> bool) {
    Preorder(locale) && forall s, t :: locale(s, t) && locale(t, s) ==> s == t
  }

  function ByIdentity(w: World, locale: (Text, Text) -> bool): (Snapshot, Snapshot) -> bool {
    (s: Snapshot, t: Snapshot) => locale(Identity(w, s), Identity(w, t))
  }

  predicate AllBuild(w: World, inputs: seq<Input>) {
    forall x :: x in inputs ==> Build(w, x).Some?
  }

  function Built(w: World): Input -> Snapshot {
    (x: Input) => match Build(w, x) case Some(s) => s case None => Snapshot(x, 0)
  }

  function IdentityOf(w: World): Snapshot -> Text {
    (s: Snapshot) => Identity(w, s)
  }

  function NormalizeAll(w: World, locale: (Text, Text) -> bool, inputs: seq<Input>): Option<seq<Snapshot>> {
    if !AllBuild(w, inputs) then None
    else
      var snapshots := Sort(ByIdentity(w, locale), Map(Built(w), inputs));
      if Unique(Map(IdentityOf(w), snapshots)) then Some(snapshots) else None
  }

  // What the global digest covers of each scope.
  datatype ScopeLine = ScopeLine(backend: Text, principal: Text, scope: Text, digest: nat, nodes: nat, edges: nat)

  function LineOf(s: Snapshot): ScopeLine {
    ScopeLine(s.content.backend, s.content.principal, s.content.scope, s.digest, |s.content.nodes|, |s.content.edges|)
  }

  function GlobalDigest(w: World, locale: (Text, Text) -> bool, digest: seq<ScopeLine> -> nat, inputs: seq<Input>): Option<nat> {
    match NormalizeAll(w, locale, inputs)
    case None => None
    case Some(snapshots) => Some(digest(Map(LineOf, snapshots)))
  }

  lemma ByIdentityOrders(w: World, locale: (Text, Text) -> bool)
    requires LocaleOk(locale)
    ensures Preorder(ByIdentity(w, locale))
  {
    forall s, t ensures ByIdentity(w, locale)(s, t) || ByIdentity(w, locale)(t, s) {
      assert locale(Identity(w, s), Identity(w, t)) || locale(Identity(w, t), Identity(w, s));
    }
    forall s, t, u | ByIdentity(w, locale)(s, t) && ByIdentity(w, locale)(t, u) ensures ByIdentity(w, locale)(s, u) {
      assert locale(Identity(w, s), Identity(w, t)) && locale(Identity(w, t), Identity(w, u));
    }
  }

  lemma IdentitiesSeparate(w: World, locale: (Text, Text) -> bool, s: seq<Snapshot>)
    requires LocaleOk(locale) && Unique(Map(IdentityOf(w), s))
    ensures Separates(ByIdentity(w, locale), s)
  {
    forall x, y | x in s && y in s && ByIdentity(w, locale)(x, y) && ByIdentity(w, locale)(y, x) ensures x == y {
      var i :| 0 <= i < |s| && s[i] == x;
      var j :| 0 <= j < |s| && s[j] == y;
      assert Map(IdentityOf(w), s)[i] == Map(IdentityOf(w), s)[j];
    }
  }

  // The global digest does not depend on the order in which the scopes are given,
  // nor does whether there is one.
  lemma GlobalDigestForgetsOrder(w: World, locale: (Text, Text) -> bool, digest: seq<ScopeLine> -> nat, x: seq<Input>, y: seq<Input>)
    requires LocaleOk(locale) && multiset(x) == multiset(y)
    ensures NormalizeAll(w, locale, x) == NormalizeAll(w, locale, y)
    ensures GlobalDigest(w, locale, digest, x) == GlobalDigest(w, locale, digest, y)
  {
    SameMembers(x, y);
    var bx, bt := Map(Built(w), x), Map(Built(w), y);
    MapMultiset(Built(w), x, y);
    var sx, sy := Sort(ByIdentity(w, locale), bx), Sort(ByIdentity(w, locale), bt);
    UniqueForgetsOrder(IdentityOf(w), bx, sx);
    UniqueForgetsOrder(IdentityOf(w), sx, sy);
    if Unique(Map(IdentityOf(w), sx)) {
      ByIdentityOrders(w, locale);
      IdentitiesSeparate(w, locale, bx);
      SortForgetsOrder(ByIdentity(w, locale), bx, bt);
    }
  }

  // Two different lists of snapshots never have one global digest, when the digests of
  // snapshots and of the list of lines are injective.
  lemma GlobalDigestIdentifies(w: World, locale: (Text, Text) -> bool, digest: seq<ScopeLine> -> nat, x: seq<Input>, y: seq<Input>)
    requires forall a, b :: w.digest(a) == w.digest(b) ==> a == b
    requires forall a, b :: digest(a) == digest(b) ==> a == b
    requires NormalizeAll(w, locale, x).Some? && NormalizeAll(w, locale, y).Some?
    ensures GlobalDigest(w, locale, digest, x) == GlobalDigest(w, locale, digest, y)
      <==> NormalizeAll(w, locale, x) == NormalizeAll(w, locale, y)
  {
    var a, b := NormalizeAll(w, locale, x).value, NormalizeAll(w, locale, y).value;
    if digest(Map(LineOf, a)) == digest(Map(LineOf, b)) {
      assert |Map(LineOf, a)| == |Map(LineOf, b)|;
      NormalizedCarryDigests(w, locale, x);
      NormalizedCarryDigests(w, locale, y);
      forall i | 0 <= i < |a| ensures a[i] == b[i] {
        assert Map(LineOf, a)[i] == Map(LineOf, b)[i];
        assert a[i] in a && b[i] in b;
      }
      assert a == b;
    }
  }

  lemma NormalizedCarryDigests(w: World, locale: (Text, Text) -> bool, x: seq<Input>)
    requires NormalizeAll(w, locale, x).Some?
    ensures forall s :: s in NormalizeAll(w, locale, x).value ==> s.digest == w.digest(s.content)
  {
    SameMembers(Map(Built(w), x), NormalizeAll(w, locale, x).value);
    forall s | s in NormalizeAll(w, locale, x).value ensures s.digest == w.digest(s.content) {
      var i := MappedFrom(Built(w), x, s);
    }
  }

  // ----- The checks, field by field ---------------------------------------------------------------

  ghost predicate Ascends(s: seq<Text>) {
    s != [] && forall i, j :: 0 <= i < j < |s| ==> TextLeq(s[i], s[j]) && s[i] != s[j]
  }

  lemma ListInFields(s: seq<Text>)
    ensures ListOk(s) <==> Ascends(s)
  {
    if ListOk(s) { InOrderSorted(s); }
  }

  ghost predicate WellFormedNode(w: World, x: Input, n: Node) {
    && n.principal == x.principal && n.scope == x.scope && n.epochs == x.frontier
    && Ascends(n.evidence) && Ascends(n.lineage)
    && match n.projectionType
       case None => n.projectionRevision == None && n.abstraction == w.l1
       case Some(t) => n.projectionRevision.Some? && n.abstraction == w.abstractionOf(t)
  }

  ghost predicate WellFormedEdge(x: Input, e: Edge) {
    && e.principal == x.principal && e.scope == x.scope && e.epochs == x.frontier
    && Ascends(e.evidence) && Ascends(e.lineage) && e.source != e.target
    && (exists n :: n in x.nodes && n.revision == e.source) && (exists n :: n in x.nodes && n.revision == e.target)
  }

  ghost predicate WellFormed(w: World, x: Input) {
    && (forall n :: n in x.nodes ==> WellFormedNode(w, x, n))
    && (forall e :: e in x.edges ==> WellFormedEdge(x, e))
    && (forall i, j :: 0 <= i < j < |x.nodes| ==> x.nodes[i].id != x.nodes[j].id && x.nodes[i].revision != x.nodes[j].revision)
    && (forall i, j :: 0 <= i < j < |x.edges| ==> x.edges[i].id != x.edges[j].id && x.edges[i].relationRevision != x.edges[j].relationRevision)
  }

  lemma RevisionsHold(s: seq<Node>, r: Text)
    ensures r in NodeRevisions(s) <==> exists n :: n in s && n.revision == r
  {
    if r in NodeRevisions(s) {
      var i :| 0 <= i < |s| && NodeRevisions(s)[i] == r;
      assert s[i] in s;
    }
    forall n | n in s && n.revision == r ensures r in NodeRevisions(s) {
      var i :| 0 <= i < |s| && s[i] == n;
      assert NodeRevisions(s)[i] == r;
    }
  }

  lemma UniqueInFields(x: Input)
    ensures Unique(NodeIds(x.nodes)) && Unique(NodeRevisions(x.nodes)) <==>
      forall i, j :: 0 <= i < j < |x.nodes| ==> x.nodes[i].id != x.nodes[j].id && x.nodes[i].revision != x.nodes[j].revision
    ensures Unique(EdgeIds(x.edges)) && Unique(EdgeRevisions(x.edges)) <==>
      forall i, j :: 0 <= i < j < |x.edges| ==> x.edges[i].id != x.edges[j].id && x.edges[i].relationRevision != x.edges[j].relationRevision
  {
    var ids, revisions, edgeIds, relations := NodeIds(x.nodes), NodeRevisions(x.nodes), EdgeIds(x.edges), EdgeRevisions(x.edges);
    assert forall i :: 0 <= i < |x.nodes| ==> ids[i] == x.nodes[i].id && revisions[i] == x.nodes[i].revision;
    assert forall i :: 0 <= i < |x.edges| ==> edgeIds[i] == x.edges[i].id && relations[i] == x.edges[i].relationRevision;
  }

  lemma SoundInFields(w: World, x: Input)
    ensures Sound(w, x) <==> WellFormed(w, x)
  {
    UniqueInFields(x);
    forall n ensures NodeOk(w, n) && InScope(x, n.principal, n.scope, n.epochs) <==> WellFormedNode(w, x, n) {
      ListInFields(n.evidence);
      ListInFields(n.lineage);
    }
    forall e: Edge
      ensures EdgeOk(e) && InScope(x, e.principal, e.scope, e.epochs) && e.source in NodeRevisions(x.nodes) && e.target in NodeRevisions(x.nodes)
        <==> WellFormedEdge(x, e)
    {
      ListInFields(e.evidence);
      ListInFields(e.lineage);
      RevisionsHold(x.nodes, e.source);
      RevisionsHold(x.nodes, e.target);
    }
  }

  // A snapshot is built exactly when every node and edge belongs to the scope and its
  // frontier, evidence and lineage ascend, types agree with abstractions, edges join two
  // different nodes of the snapshot, and identities are unique. It holds the same nodes
  // and edges, ordered by their texts, and the digest of that.
  lemma BuiltInFields(w: World, x: Input)
    ensures Build(w, x).Some? <==> WellFormed(w, x)
    ensures Build(w, x).Some? ==>
      var s := Build(w, x).value;
      && multiset(s.content.nodes) == multiset(x.nodes) && multiset(s.content.edges) == multiset(x.edges)
      && s.content == x.(nodes := s.content.nodes, edges := s.content.edges) && s.digest == w.digest(s.content)
      && (forall i, j :: 0 <= i < j < |s.content.nodes| ==> TextLeq(NodeKey(w, s.content.nodes[i]), NodeKey(w, s.content.nodes[j])))
      && (forall i, j :: 0 <= i < j < |s.content.edges| ==> TextLeq(EdgeKey(w, s.content.edges[i]), EdgeKey(w, s.content.edges[j])))
  {
    BuildExactly(w, x);
    SoundInFields(w, x);
    if Build(w, x).Some? {
      CanonicalIsPermuted(w, x);
      var s := Build(w, x).value.content;
      NodesInOrderSorted(w, s.nodes);
      EdgesInOrderSorted(w, s.edges);
      forall i, j | 0 <= i < j < |s.nodes| ensures TextLeq(NodeKey(w, s.nodes[i]), NodeKey(w, s.nodes[j])) {
        assert NodeLeq(w)(s.nodes[i], s.nodes[j]);
      }
      forall i, j | 0 <= i < j < |s.edges| ensures TextLeq(EdgeKey(w, s.edges[i]), EdgeKey(w, s.edges[j])) {
        assert EdgeLeq(w)(s.edges[i], s.edges[j]);
      }
    }
  }
}
