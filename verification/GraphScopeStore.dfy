// The scopes that the native graph adapter keeps: rows of nodes under their node keys,
// rows of links, and one snapshot per scope key.
module GraphScopeStore {
  import opened JoinedIdentifiers

  datatype Option<+T> = None | Some(value: T)

  datatype Scope = Scope(principal: string, kind: string, id: string)

  // graphScopeKey: principal, kind and id joined by colons.
  function GraphScopeKey(s: Scope): string {
    JoinIds(s.principal, JoinIds(s.kind, s.id))
  }

  // nodeKey: the same text with the revision joined to it.
  function NodeKey(s: Scope, revision: string): string {
    JoinIds(GraphScopeKey(s), revision)
  }

  datatype Edge = Edge(source: string, target: string, relation: string)

  // Nodes stand for their revisions, which the snapshot schema makes unique.
  datatype Snapshot = Snapshot(scope: Scope, nodes: set<string>, edges: set<Edge>, digest: nat)

  datatype NodeRow = NodeRow(scopeKey: string, revision: string)

  // `from` and `to` are the node keys of the rows that the link connects.
  datatype LinkRow = LinkRow(scopeKey: string, from: string, to: string, edge: Edge)

  // The node key is the primary key of its table, and the scope key of the scopes'.
  datatype Store = Store(nodes: map<string, NodeRow>, links: set<LinkRow>, scopes: map<string, Snapshot>)

  const EMPTY := Store(map[], {}, map[])

  // The snapshot schema: edges end at nodes of the snapshot.
  predicate Sound(s: Snapshot) {
    forall e :: e in s.edges ==> e.source in s.nodes && e.target in s.nodes
  }

  function Without(st: Store, key: string): Store {
    Store((map x | x in st.nodes && st.nodes[x].scopeKey != key :: st.nodes[x]),
          (set l | l in st.links && l.scopeKey != key),
          st.scopes - {key})
  }

  function KeysOf(s: Scope, nodes: set<string>): set<string> {
    set n | n in nodes :: NodeKey(s, n)
  }

  // The rest of a node key after its scope key and a colon.
  function RevisionIn(s: Scope, key: string): string {
    if |key| > |GraphScopeKey(s)| then key[|GraphScopeKey(s)| + 1..] else ""
  }

  function RowsOf(s: Scope, nodes: set<string>): map<string, NodeRow> {
    map x | x in KeysOf(s, nodes) :: NodeRow(GraphScopeKey(s), RevisionIn(s, x))
  }

  lemma RevisionInKey(s: Scope)
    ensures forall n :: RevisionIn(s, NodeKey(s, n)) == n
  {
    forall n ensures RevisionIn(s, NodeKey(s, n)) == n {
      assert NodeKey(s, n)[|GraphScopeKey(s)| + 1..] == n;
    }
  }

  function LinkOf(s: Scope, e: Edge): LinkRow {
    LinkRow(GraphScopeKey(s), NodeKey(s, e.source), NodeKey(s, e.target), e)
  }

  function LinksOf(s: Scope, edges: set<Edge>): set<LinkRow> {
    set e | e in edges :: LinkOf(s, e)
  }

  predicate AllFree(nodes: map<string, NodeRow>, s: Scope, created: set<string>) {
    forall n :: n in created ==> NodeKey(s, n) !in nodes
  }

  // A node of the snapshot has the node key of a row that stays.
  predicate Taken(st: Store, snapshot: Snapshot) {
    !AllFree(Without(st, GraphScopeKey(snapshot.scope)).nodes, snapshot.scope, snapshot.nodes)
  }

  // None: the call throws, and its transaction is rolled back.
  function Replace(st: Store, snapshot: Snapshot): Option<Store> {
    if !Sound(snapshot) || Taken(st, snapshot) then None
    else
      var rest := Without(st, GraphScopeKey(snapshot.scope));
      Some(Store(rest.nodes + RowsOf(snapshot.scope, snapshot.nodes),
                 rest.links + LinksOf(snapshot.scope, snapshot.edges),
                 rest.scopes[GraphScopeKey(snapshot.scope) := snapshot]))
  }

  // The store after the call.
  function Replaced(st: Store, snapshot: Snapshot): Store {
    match Replace(st, snapshot) case Some(now) => now case None => st
  }

  function Deleted(st: Store, scope: Scope): Store {
    Without(st, GraphScopeKey(scope))
  }

  // Everything that an operation on a scope can see of the store.
  datatype View = View(nodes: set<string>, edges: set<Edge>, snapshot: Option<Snapshot>)

  function ViewOf(st: Store, scope: Scope): View {
    var key := GraphScopeKey(scope);
    View((set x | x in st.nodes && st.nodes[x].scopeKey == key :: st.nodes[x].revision),
         (set l | l in st.links && l.scopeKey == key :: l.edge),
         if key in st.scopes then Some(st.scopes[key]) else None)
  }

  // ----- The procedures -----------------------------------------------------------------

  class Adapter {
    var nodes: map<string, NodeRow>
    var links: set<LinkRow>
    var scopes: map<string, Snapshot>

    ghost function Contents(): Store
      reads this
    {
      Store(nodes, links, scopes)
    }

    constructor ()
      ensures Contents() == EMPTY && StoreOk(Contents())
    {
      nodes, links, scopes := map[], {}, map[];
    }

    // The three statements that both operations begin with.
    method DeleteRows(key: string)
      modifies this
      ensures Contents() == Without(old(Contents()), key)
    {
      links := set l | l in links && l.scopeKey != key;
      nodes := map x | x in nodes && nodes[x].scopeKey != key :: nodes[x];
      scopes := scopes - {key};
    }

    // Stops at the first node whose key is taken.
    method CreateNodes(scope: Scope, created: set<string>) returns (ok: bool)
      modifies this`nodes
      ensures ok <==> AllFree(old(nodes), scope, created)
      ensures ok ==> nodes == old(nodes) + RowsOf(scope, created)
    {
      ghost var was := nodes;
      NoRows(was, scope);
      var rest := created;
      ghost var done: set<string> := {};
      while rest != {}
        invariant done + rest == created && done !! rest
        invariant AllFree(was, scope, done) && nodes == was + RowsOf(scope, done)
        decreases |rest|
      {
        var n :| n in rest;
        RowsGrow(was, scope, done, n);
        if NodeKey(scope, n) in nodes {
          assert n in created;
          return false;
        }
        nodes := nodes[NodeKey(scope, n) := NodeRow(GraphScopeKey(scope), n)];
        rest, done := rest - {n}, done + {n};
      }
      assert done == created;
      ok := true;
    }

    // MATCH both ends, then CREATE: without both rows nothing is created.
    method CreateLinks(scope: Scope, edges: set<Edge>)
      requires forall e :: e in edges ==> NodeKey(scope, e.source) in nodes && NodeKey(scope, e.target) in nodes
      modifies this`links
      ensures links == old(links) + LinksOf(scope, edges)
    {
      var rest := edges;
      while rest != {}
        invariant rest <= edges
        invariant links == old(links) + LinksOf(scope, edges - rest)
        decreases |rest|
      {
        var e :| e in rest;
        if NodeKey(scope, e.source) in nodes && NodeKey(scope, e.target) in nodes {
          links := links + {LinkOf(scope, e)};
        }
        rest := rest - {e};
        assert edges - rest == edges - (rest + {e}) + {e};
      }
      assert edges - rest == edges;
    }

    method ReadScopeSnapshot(scope: Scope) returns (r: Option<Snapshot>)
      ensures r == ViewOf(Contents(), scope).snapshot
    {
      var key := GraphScopeKey(scope);
      if key in scopes { r := Some(scopes[key]); } else { r := None; }
    }

    // One transaction: on a taken node key everything is as before.
    method ReplaceScope(snapshot: Snapshot) returns (r: Option<Snapshot>)
      modifies this
      ensures Contents() == Replaced(old(Contents()), snapshot)
      ensures r == if Replace(old(Contents()), snapshot).Some? then Some(snapshot) else None
      ensures old(StoreOk(Contents())) ==> StoreOk(Contents())
    {
      ReplaceStaysOk(Contents(), snapshot);
      if !Sound(snapshot) {
        return None;
      }
      var scope, key := snapshot.scope, GraphScopeKey(snapshot.scope);
      var nodesBefore, linksBefore, scopesBefore := nodes, links, scopes;
      DeleteRows(key);
      var ok := CreateNodes(scope, snapshot.nodes);
      if !ok {
        nodes, links, scopes := nodesBefore, linksBefore, scopesBefore;
        return None;
      }
      CreateLinks(scope, snapshot.edges);
      scopes := scopes[key := snapshot];
      r := ReadScopeSnapshot(scope);
      if r.None? || r.value.digest != snapshot.digest {
        r := None;
      }
    }

    method DeleteScope(scope: Scope)
      modifies this
      ensures Contents() == Deleted(old(Contents()), scope)
      ensures old(StoreOk(Contents())) ==> StoreOk(Contents())
    {
      DeleteStaysOk(Contents(), GraphScopeKey(scope));
      DeleteRows(GraphScopeKey(scope));
    }
  }

  lemma NoRows(nodes: map<string, NodeRow>, s: Scope)
    ensures nodes + RowsOf(s, {}) == nodes
  {
  }

  lemma RowsGrow(nodes: map<string, NodeRow>, s: Scope, done: set<string>, n: string)
    requires n !in done
    ensures NodeKey(s, n) in nodes + RowsOf(s, done) <==> NodeKey(s, n) in nodes
    ensures nodes + RowsOf(s, done + {n}) == (nodes + RowsOf(s, done))[NodeKey(s, n) := NodeRow(GraphScopeKey(s), n)]
  {
    RevisionInKey(s);
    assert KeysOf(s, done + {n}) == KeysOf(s, done) + {NodeKey(s, n)};
  }

  // ----- What every store keeps -----------------------------------------------------------

  // The rows are exactly those of the stored snapshots, so a link never outlives a node
  // that it connects.
  ghost predicate StoreOk(st: Store) {
    && (forall k :: k in st.scopes ==> GraphScopeKey(st.scopes[k].scope) == k && Sound(st.scopes[k]))
    && (forall k, n :: k in st.scopes && n in st.scopes[k].nodes ==>
          NodeKey(st.scopes[k].scope, n) in st.nodes && st.nodes[NodeKey(st.scopes[k].scope, n)] == NodeRow(k, n))
    && (forall x :: x in st.nodes ==> RowStands(st, x))
    && (forall l :: l in st.links ==> LinkStands(st, l))
  }

  ghost predicate RowStands(st: Store, x: string)
    requires x in st.nodes
  {
    var row := st.nodes[x];
    row.scopeKey in st.scopes && row.revision in st.scopes[row.scopeKey].nodes && x == NodeKey(st.scopes[row.scopeKey].scope, row.revision)
  }

  ghost predicate LinkStands(st: Store, l: LinkRow) {
    l.scopeKey in st.scopes && l.edge in st.scopes[l.scopeKey].edges && l == LinkOf(st.scopes[l.scopeKey].scope, l.edge)
  }

  lemma DeleteStaysOk(st: Store, key: string)
    ensures StoreOk(st) ==> StoreOk(Without(st, key))
  {
    if StoreOk(st) {
      var now := Without(st, key);
      forall x | x in now.nodes ensures RowStands(now, x) { assert RowStands(st, x); }
      forall l | l in now.links ensures LinkStands(now, l) { assert LinkStands(st, l); }
    }
  }

  lemma ReplaceStaysOk(st: Store, snapshot: Snapshot)
    ensures StoreOk(st) ==> StoreOk(Replaced(st, snapshot))
  {
    if StoreOk(st) && Replace(st, snapshot).Some? {
      DeleteStaysOk(st, GraphScopeKey(snapshot.scope));
      AddedStaysOk(Without(st, GraphScopeKey(snapshot.scope)), snapshot, Replaced(st, snapshot));
    }
  }

  lemma AddedStaysOk(rest: Store, snapshot: Snapshot, now: Store)
    requires StoreOk(rest) && Sound(snapshot) && GraphScopeKey(snapshot.scope) !in rest.scopes
    requires forall n :: n in snapshot.nodes ==> NodeKey(snapshot.scope, n) !in rest.nodes
    requires now == Store(rest.nodes + RowsOf(snapshot.scope, snapshot.nodes), rest.links + LinksOf(snapshot.scope, snapshot.edges),
                          rest.scopes[GraphScopeKey(snapshot.scope) := snapshot])
    ensures StoreOk(now)
  {
    var rows := RowsOf(snapshot.scope, snapshot.nodes);
    RevisionInKey(snapshot.scope);
    forall x | x in now.nodes ensures RowStands(now, x) {
      if x !in rows { assert RowStands(rest, x); }
    }
    forall l | l in now.links ensures LinkStands(now, l) {
      if l in rest.links { assert LinkStands(rest, l); }
    }
    forall k, n | k in now.scopes && n in now.scopes[k].nodes
      ensures NodeKey(now.scopes[k].scope, n) in now.nodes && now.nodes[NodeKey(now.scopes[k].scope, n)] == NodeRow(k, n)
    {
      if k == GraphScopeKey(snapshot.scope) { assert NodeKey(snapshot.scope, n) in rows; }
    }
  }

  // ----- Which scopes share a key -----------------------------------------------------

  // The principal of `b` has taken in the kind of `a`, and perhaps more, and the
  // identifier of `a` gives the rest of `b`.
  ghost predicate Absorbs(b: Scope, a: Scope) {
    || (b.principal == a.principal + ":" + a.kind && a.id == b.kind + ":" + b.id)
    || (exists x: string :: b.principal == a.principal + ":" + a.kind + ":" + x && a.id == x + ":" + b.kind + ":" + b.id)
  }

  // Kinds never contain a colon. Two scopes share a key exactly when they are the
  // same or one absorbs the other.
  lemma KeysSharedExactly(a: Scope, b: Scope)
    requires ':' !in a.kind && ':' !in b.kind
    ensures GraphScopeKey(a) == GraphScopeKey(b) <==> a == b || Absorbs(a, b) || Absorbs(b, a)
  {
    if GraphScopeKey(a) == GraphScopeKey(b) {
      if |a.principal| <= |b.principal| { SharedKeyAbsorbs(a, b); } else { SharedKeyAbsorbs(b, a); }
    }
    if Absorbs(a, b) { AbsorbedShares(b, a); }
    if Absorbs(b, a) { AbsorbedShares(a, b); }
  }

  lemma SharedKeyAbsorbs(a: Scope, b: Scope)
    requires ':' !in a.kind && ':' !in b.kind && |a.principal| <= |b.principal|
    requires GraphScopeKey(a) == GraphScopeKey(b)
    ensures a == b || Absorbs(b, a)
  {
    var r, q := JoinIds(a.kind, a.id), JoinIds(b.kind, b.id);
    JoinedIdsRegroup(a.principal, r, b.principal, q);
    if a.principal == b.principal && r == q {
      JoinedIdsWithoutColon(a.kind, a.id, b.kind, b.id);
    } else {
      var y: string :| b.principal == a.principal + ":" + y && r == y + ":" + q;
      ColonFreeIsShorter(a.kind, a.id, y, q);
      JoinedIdsRegroup(a.kind, a.id, y, q);
      if !(a.kind == y && a.id == q) {
        var x: string :| y == a.kind + ":" + x && a.id == x + ":" + q;
        assert b.principal == a.principal + ":" + a.kind + ":" + x;
        assert a.id == x + ":" + b.kind + ":" + b.id;
      }
    }
  }

  lemma AbsorbedShares(a: Scope, b: Scope)
    requires Absorbs(b, a)
    ensures GraphScopeKey(a) == GraphScopeKey(b)
  {
    if b.principal == a.principal + ":" + a.kind && a.id == b.kind + ":" + b.id {
      assert a.principal + ":" + (a.kind + ":" + (b.kind + ":" + b.id)) == a.principal + ":" + a.kind + ":" + (b.kind + ":" + b.id);
    } else {
      var x: string :| b.principal == a.principal + ":" + a.kind + ":" + x && a.id == x + ":" + b.kind + ":" + b.id;
      assert a.principal + ":" + (a.kind + ":" + (x + ":" + b.kind + ":" + b.id))
          == a.principal + ":" + a.kind + ":" + x + ":" + (b.kind + ":" + b.id);
    }
  }

  // ----- Which nodes share a key --------------------------------------------------------

  // Nodes of scopes with different keys share a node key exactly when a colon of the
  // revision on one side is the last colon of the scope key on the other.
  lemma NodeKeysSharedExactly(a: Scope, n: string, b: Scope, m: string)
    ensures NodeKey(a, n) == NodeKey(b, m) <==>
      || (GraphScopeKey(a) == GraphScopeKey(b) && n == m)
      || Regrouped(GraphScopeKey(a), n, GraphScopeKey(b), m)
      || Regrouped(GraphScopeKey(b), m, GraphScopeKey(a), n)
  {
    JoinedIdsCollideExactly(GraphScopeKey(a), n, GraphScopeKey(b), m);
  }

  // A stored snapshot stands in the way of another one.
  ghost predicate Blocks(stored: Snapshot, snapshot: Snapshot) {
    && GraphScopeKey(stored.scope) != GraphScopeKey(snapshot.scope)
    && exists n, m :: n in snapshot.nodes && m in stored.nodes &&
         (Regrouped(GraphScopeKey(snapshot.scope), n, GraphScopeKey(stored.scope), m)
          || Regrouped(GraphScopeKey(stored.scope), m, GraphScopeKey(snapshot.scope), n))
  }

  // Storing a scope is refused exactly when some stored scope stands in the way.
  lemma RefusedExactlyWhenBlocked(st: Store, snapshot: Snapshot)
    requires StoreOk(st) && Sound(snapshot)
    ensures Replace(st, snapshot).None? <==> exists k :: k in st.scopes && Blocks(st.scopes[k], snapshot)
  {
    var key, rest := GraphScopeKey(snapshot.scope), Without(st, GraphScopeKey(snapshot.scope));
    if Taken(st, snapshot) {
      var n :| n in snapshot.nodes && NodeKey(snapshot.scope, n) in rest.nodes;
      var x := NodeKey(snapshot.scope, n);
      assert RowStands(st, x);
      var k, m := st.nodes[x].scopeKey, st.nodes[x].revision;
      NodeKeysSharedExactly(snapshot.scope, n, st.scopes[k].scope, m);
      assert Blocks(st.scopes[k], snapshot);
    }
    forall k | k in st.scopes && Blocks(st.scopes[k], snapshot) ensures Taken(st, snapshot) {
      var n, m :| n in snapshot.nodes && m in st.scopes[k].nodes &&
        (Regrouped(key, n, GraphScopeKey(st.scopes[k].scope), m) || Regrouped(GraphScopeKey(st.scopes[k].scope), m, key, n));
      NodeKeysSharedExactly(snapshot.scope, n, st.scopes[k].scope, m);
      assert NodeKey(snapshot.scope, n) in rest.nodes;
    }
  }

  // ----- What one scope does to another ---------------------------------------------------

  // A stored scope reads back as the last snapshot that was stored under its key.
  lemma ReplacedViews(st: Store, snapshot: Snapshot, b: Scope)
    requires Replace(st, snapshot).Some?
    ensures GraphScopeKey(snapshot.scope) == GraphScopeKey(b) ==>
      ViewOf(Replaced(st, snapshot), b) == View(snapshot.nodes, snapshot.edges, Some(snapshot))
    ensures GraphScopeKey(snapshot.scope) != GraphScopeKey(b) ==> ViewOf(Replaced(st, snapshot), b) == ViewOf(st, b)
  {
    var key, now := GraphScopeKey(snapshot.scope), Replaced(st, snapshot);
    var rows := RowsOf(snapshot.scope, snapshot.nodes);
    RevisionInKey(snapshot.scope);
    if key == GraphScopeKey(b) {
      forall n | n in snapshot.nodes ensures n in ViewOf(now, b).nodes {
        assert NodeKey(snapshot.scope, n) in rows && now.nodes[NodeKey(snapshot.scope, n)] == NodeRow(key, n);
      }
      forall e | e in snapshot.edges ensures e in ViewOf(now, b).edges { assert LinkOf(snapshot.scope, e) in now.links; }
      assert ViewOf(now, b).nodes == snapshot.nodes && ViewOf(now, b).edges == snapshot.edges;
    } else {
      OtherRowsStay(st, snapshot, GraphScopeKey(b));
    }
  }

  lemma OtherRowsStay(st: Store, snapshot: Snapshot, other: string)
    requires Replace(st, snapshot).Some? && other != GraphScopeKey(snapshot.scope)
    ensures var now := Replaced(st, snapshot);
      && (forall x :: x in now.nodes && now.nodes[x].scopeKey == other <==> x in st.nodes && st.nodes[x].scopeKey == other)
      && (forall x :: x in st.nodes && st.nodes[x].scopeKey == other ==> now.nodes[x] == st.nodes[x])
      && (forall l :: l in now.links && l.scopeKey == other <==> l in st.links && l.scopeKey == other)
  {
    var rest, rows := Without(st, GraphScopeKey(snapshot.scope)), RowsOf(snapshot.scope, snapshot.nodes);
    RevisionInKey(snapshot.scope);
    forall x | x in rows ensures x !in rest.nodes && rows[x].scopeKey != other { }
  }

  lemma DeletedViews(st: Store, a: Scope, b: Scope)
    ensures GraphScopeKey(a) == GraphScopeKey(b) ==> ViewOf(Deleted(st, a), b) == View({}, {}, None)
    ensures GraphScopeKey(a) != GraphScopeKey(b) ==> ViewOf(Deleted(st, a), b) == ViewOf(st, b)
  {
    var now := Deleted(st, a);
    assert GraphScopeKey(a) != GraphScopeKey(b) ==>
      (forall x :: x in now.nodes && now.nodes[x].scopeKey == GraphScopeKey(b) <==> x in st.nodes && st.nodes[x].scopeKey == GraphScopeKey(b)) &&
      (forall l :: l in now.links && l.scopeKey == GraphScopeKey(b) <==> l in st.links && l.scopeKey == GraphScopeKey(b));
  }

  ghost predicate ReplaceLeavesAlone(a: Scope, b: Scope) {
    forall st: Store, snapshot: Snapshot :: snapshot.scope == a ==> ViewOf(Replaced(st, snapshot), b) == ViewOf(st, b)
  }

  ghost predicate DeleteLeavesAlone(a: Scope, b: Scope) {
    forall st: Store :: ViewOf(Deleted(st, a), b) == ViewOf(st, b)
  }

  // Whatever is stored of one scope, any sound snapshot of the other can be stored too.
  ghost predicate NeverRefuses(a: Scope, b: Scope) {
    forall stored: Snapshot, snapshot: Snapshot :: stored.scope == a && snapshot.scope == b && Sound(stored) && Sound(snapshot) ==>
      Replace(Replaced(EMPTY, stored), snapshot).Some?
  }

  lemma StoredAlone(stored: Snapshot)
    requires Sound(stored)
    ensures Replace(EMPTY, stored).Some? && StoreOk(Replaced(EMPTY, stored))
    ensures Replaced(EMPTY, stored).scopes == map[GraphScopeKey(stored.scope) := stored]
  {
    ReplaceStaysOk(EMPTY, stored);
  }

  // Storing or deleting one scope never changes what another one sees exactly when
  // neither absorbs the other.
  lemma ScopesAreApartExactly(a: Scope, b: Scope)
    requires a != b && ':' !in a.kind && ':' !in b.kind
    ensures ReplaceLeavesAlone(a, b) <==> !Absorbs(a, b) && !Absorbs(b, a)
    ensures DeleteLeavesAlone(a, b) <==> !Absorbs(a, b) && !Absorbs(b, a)
  {
    KeysSharedExactly(a, b);
    if GraphScopeKey(a) == GraphScopeKey(b) {
      var mine, theirs := Snapshot(a, {}, {}, 0), Snapshot(b, {}, {}, 0);
      StoredAlone(mine);
      StoredAlone(theirs);
      ReplacedViews(EMPTY, mine, b);
      assert ViewOf(Replaced(EMPTY, mine), b) != ViewOf(EMPTY, b);
      ReplacedViews(EMPTY, theirs, b);
      DeletedViews(Replaced(EMPTY, theirs), a, b);
      assert ViewOf(Deleted(Replaced(EMPTY, theirs), a), b) != ViewOf(Replaced(EMPTY, theirs), b);
    } else {
      forall st: Store, snapshot: Snapshot | snapshot.scope == a ensures ViewOf(Replaced(st, snapshot), b) == ViewOf(st, b) {
        if Replace(st, snapshot).Some? { ReplacedViews(st, snapshot, b); }
      }
      forall st: Store ensures ViewOf(Deleted(st, a), b) == ViewOf(st, b) {
        DeletedViews(st, a, b);
      }
    }
  }

  // `t` goes on after `s` and a colon.
  ghost predicate Prolongs(t: string, s: string) {
    exists x: string :: t == s + ":" + x
  }

  // Two scopes never stand in each other's way exactly when neither scope key prolongs
  // the other.
  lemma NeverRefusesExactly(a: Scope, b: Scope)
    ensures NeverRefuses(a, b) <==> !Prolongs(GraphScopeKey(a), GraphScopeKey(b)) && !Prolongs(GraphScopeKey(b), GraphScopeKey(a))
  {
    if Prolongs(GraphScopeKey(a), GraphScopeKey(b)) { SomeNodeBlocks(b, a, "r"); }
    if Prolongs(GraphScopeKey(b), GraphScopeKey(a)) { SomeNodeBlocks(a, b, "r"); }
    if !Prolongs(GraphScopeKey(a), GraphScopeKey(b)) && !Prolongs(GraphScopeKey(b), GraphScopeKey(a)) {
      forall stored: Snapshot, snapshot: Snapshot | stored.scope == a && snapshot.scope == b && Sound(stored) && Sound(snapshot)
        ensures Replace(Replaced(EMPTY, stored), snapshot).Some?
      {
        StoredAlone(stored);
        RefusedExactlyWhenBlocked(Replaced(EMPTY, stored), snapshot);
        assert !Blocks(stored, snapshot);
      }
    }
  }

  lemma BlockedPair(stored: Snapshot, snapshot: Snapshot, m: string, n: string)
    requires Sound(stored) && Sound(snapshot) && m in stored.nodes && n in snapshot.nodes
    requires Regrouped(GraphScopeKey(stored.scope), m, GraphScopeKey(snapshot.scope), n)
    ensures Replace(Replaced(EMPTY, stored), snapshot).None? && Replace(Replaced(EMPTY, snapshot), stored).None?
  {
    assert |GraphScopeKey(stored.scope)| < |GraphScopeKey(snapshot.scope)|;
    assert Blocks(stored, snapshot) && Blocks(snapshot, stored);
    StoredAlone(stored);
    StoredAlone(snapshot);
    RefusedExactlyWhenBlocked(Replaced(EMPTY, stored), snapshot);
    RefusedExactlyWhenBlocked(Replaced(EMPTY, snapshot), stored);
  }

  lemma RefusedSometime(stored: Snapshot, snapshot: Snapshot)
    requires Sound(stored) && Sound(snapshot) && Replace(Replaced(EMPTY, stored), snapshot).None?
    ensures !NeverRefuses(stored.scope, snapshot.scope)
  {
  }

  lemma SomeNodeBlocks(a: Scope, b: Scope, r: string)
    requires Prolongs(GraphScopeKey(b), GraphScopeKey(a))
    ensures !NeverRefuses(a, b) && !NeverRefuses(b, a)
  {
    var x: string :| GraphScopeKey(b) == GraphScopeKey(a) + ":" + x;
    var stored, snapshot := Snapshot(a, {x + ":" + r}, {}, 0), Snapshot(b, {r}, {}, 0);
    BlockedPair(stored, snapshot, x + ":" + r, r);
    RefusedSometime(stored, snapshot);
    RefusedSometime(snapshot, stored);
  }

  // ----- Scopes of principals without colons ------------------------------------------------

  lemma ColonFreeProlongs(a: Scope, b: Scope)
    requires ':' !in a.kind && ':' !in b.kind && ':' !in a.principal && ':' !in b.principal
    ensures Prolongs(GraphScopeKey(b), GraphScopeKey(a)) <==> a.principal == b.principal && a.kind == b.kind && Prolongs(b.id, a.id)
  {
    if Prolongs(GraphScopeKey(b), GraphScopeKey(a)) {
      var x: string :| GraphScopeKey(b) == GraphScopeKey(a) + ":" + x;
      assert GraphScopeKey(b) == JoinIds(a.principal, JoinIds(a.kind, a.id + ":" + x));
      JoinedIdsWithoutColon(b.principal, JoinIds(b.kind, b.id), a.principal, JoinIds(a.kind, a.id + ":" + x));
      JoinedIdsWithoutColon(b.kind, b.id, a.kind, a.id + ":" + x);
    }
    if a.principal == b.principal && a.kind == b.kind && Prolongs(b.id, a.id) {
      var x: string :| b.id == a.id + ":" + x;
      assert GraphScopeKey(b) == GraphScopeKey(a) + ":" + x;
    }
  }

  // While principals hold no colon, no scope ever changes what another one sees, and two
  // scopes can stand in each other's way exactly when they are of one principal and kind
  // and the identifier of one prolongs that of the other.
  lemma ColonFreePrincipals(a: Scope, b: Scope)
    requires a != b && ':' !in a.kind && ':' !in b.kind && ':' !in a.principal && ':' !in b.principal
    ensures ReplaceLeavesAlone(a, b) && DeleteLeavesAlone(a, b)
    ensures NeverRefuses(a, b) <==>
      !(a.principal == b.principal && a.kind == b.kind && (Prolongs(a.id, b.id) || Prolongs(b.id, a.id)))
  {
    ScopesAreApartExactly(a, b);
    NoColonNoAbsorption(a, b);
    NoColonNoAbsorption(b, a);
    NeverRefusesExactly(a, b);
    ColonFreeProlongs(a, b);
    ColonFreeProlongs(b, a);
  }

  lemma NoColonNoAbsorption(a: Scope, b: Scope)
    requires ':' !in b.principal
    ensures !Absorbs(b, a)
  {
    assert ':' in a.principal + ":" + a.kind;
    assert forall x: string :: ':' in a.principal + ":" + a.kind + ":" + x;
  }

  // ----- Two witnesses ------------------------------------------------------------------------

  // Two principals with one key: storing the second one's scope replaces the first
  // one's, and deleting it leaves the first with nothing.
  lemma SharedKeyOverwrites(p: string, k: string, i: string, theirs: Snapshot, mine: Snapshot)
    requires theirs.scope == Scope(p, k, k + ":" + i) && mine.scope == Scope(p + ":" + k, k, i) && Sound(theirs) && Sound(mine)
    ensures theirs.scope.principal != mine.scope.principal
    ensures ViewOf(Replaced(Replaced(EMPTY, theirs), mine), theirs.scope).snapshot == Some(mine)
    ensures ViewOf(Deleted(Replaced(EMPTY, theirs), mine.scope), theirs.scope) == View({}, {}, None)
  {
    var st := Replaced(EMPTY, theirs);
    assert Absorbs(mine.scope, theirs.scope);
    AbsorbedShares(theirs.scope, mine.scope);
    StoredAlone(theirs);
    RefusedExactlyWhenBlocked(st, mine);
    assert !Blocks(theirs, mine);
    ReplacedViews(st, mine, theirs.scope);
    DeletedViews(st, mine.scope, theirs.scope);
    assert |p + ":" + k| > |p|;
  }

  // Two scopes of one principal, whatever that is: each can be stored alone, and neither
  // beside the other, as their nodes have one key; the refused call leaves the store as
  // it was.
  lemma SharedNodeKeyRefuses(p: string, k: string, i: string, x: string, m: string, longer: Snapshot, shorter: Snapshot)
    requires longer.scope == Scope(p, k, i + ":" + x) && shorter.scope == Scope(p, k, i) && Sound(longer) && Sound(shorter)
    requires m in longer.nodes && x + ":" + m in shorter.nodes
    ensures GraphScopeKey(longer.scope) != GraphScopeKey(shorter.scope)
    ensures Replace(EMPTY, longer).Some? && Replace(EMPTY, shorter).Some?
    ensures Replace(Replaced(EMPTY, longer), shorter).None? && Replaced(Replaced(EMPTY, longer), shorter) == Replaced(EMPTY, longer)
    ensures Replace(Replaced(EMPTY, shorter), longer).None? && Replaced(Replaced(EMPTY, shorter), longer) == Replaced(EMPTY, shorter)
  {
    StoredAlone(longer);
    StoredAlone(shorter);
    assert GraphScopeKey(longer.scope) == GraphScopeKey(shorter.scope) + ":" + x;
    BlockedPair(shorter, longer, x + ":" + m, m);
  }
}
