// The hard filter: which candidates may be considered at all.
module HardFilters {
  import opened Ordering
  import opened ContextTypes

  datatype Options = Options(
    allowedScopes: set<Id>, asOf: int, includeSensitive: bool, frontier: ContextFrontier)

  predicate Valid(v: Validity, asOf: int) {
    v.validFrom <= asOf && (v.validTo.None? || v.validTo.value > asOf)
  }

  predicate Hidden(s: Sensitivity, includeSensitive: bool) {
    s == Secret || (s == Sensitive && !includeSensitive)
  }

  predicate LaneMatches(lane: Lane, abstraction: Abstraction) {
    match abstraction
    case L2Relation => lane == RelationSqlite || lane == RelationGraph
    case L2Topic => lane == Topic
    case L2Scenario => lane == ScenarioProcedure
    case L3Core => lane == Core
  }

  function FindScope(scopes: seq<ScopeFrontier>, scope: Id): Option<ScopeFrontier> {
    if scopes == [] then None
    else if scopes[0].scope == scope then Some(scopes[0])
    else FindScope(scopes[1..], scope)
  }

  predicate SameFrontier(p: Projection, f: ContextFrontier) {
    match f
    case Single(frontier, transforms) => p.frontier == frontier && p.transform in transforms
    case Scoped(ledger, tombstone, scopes) =>
      match FindScope(scopes, p.scope)
      case None => false
      case Some(s) =>
        p.frontier == Frontier(ledger, tombstone, s.projectionEpoch, s.sourceHash, s.projectionHash)
        && p.transform in s.transforms
  }

  // The first check that a memory, a projection, or any candidate fails.
  function MemoryVerdict(o: Options, c: Candidate): Option<Reason>
    requires c.MemoryCandidate?
  {
    if c.memory.scope != c.scope || !c.memory.active then Some(CanonicalSourceChanged)
    else if !Valid(c.memory.validity, o.asOf) then Some(OutsideValidity)
    else if Hidden(c.memory.sensitivity, o.includeSensitive) then Some(SensitivityExcluded)
    else if !c.memory.inline then Some(ContentNotInline)
    else None
  }

  function ProjectionVerdict(o: Options, c: Candidate): Option<Reason>
    requires c.ProjectionCandidate?
  {
    var p := c.projection;
    if !p.hasPrincipal || p.scope != c.scope || !p.active || p.payload.None? || !p.inline then Some(ProjectionIneligible)
    else if !LaneMatches(c.lane, p.abstraction) || c.abstraction != p.abstraction then Some(ProjectionLaneMismatch)
    else if !SameFrontier(p, o.frontier) then Some(ProjectionStaleFrontier)
    else if Hidden(p.sensitivity, o.includeSensitive) then Some(SensitivityExcluded)
    else if !Valid(p.validity, o.asOf) then Some(OutsideValidity)
    else None
  }

  function Verdict(o: Options, c: Candidate): Option<Reason> {
    if !c.revalidated then Some(CanonicalRevalidationRequired)
    else if c.scope !in o.allowedScopes then Some(ScopeExcluded)
    else if c.MemoryCandidate? then MemoryVerdict(o, c)
    else ProjectionVerdict(o, c)
  }

  // What a candidate has to be to reach a context, said without an order of checks.
  predicate Admissible(o: Options, c: Candidate) {
    && c.revalidated && c.scope in o.allowedScopes
    && match c
       case MemoryCandidate(_, _, _, _, m, _) =>
         m.scope == c.scope && m.active && m.inline && Valid(m.validity, o.asOf) && !Hidden(m.sensitivity, o.includeSensitive)
       case ProjectionCandidate(_, _, _, _, a, p, _) =>
         && p.hasPrincipal && p.scope == c.scope && p.active && p.inline && p.payload.Some?
         && LaneMatches(c.lane, p.abstraction) && a == p.abstraction && SameFrontier(p, o.frontier)
         && Valid(p.validity, o.asOf) && !Hidden(p.sensitivity, o.includeSensitive)
  }

  predicate ByLaneRevision(a: Prepared, b: Prepared) {
    LaneName(a.Lane()) < LaneName(b.Lane())
    || (LaneName(a.Lane()) == LaneName(b.Lane()) && a.RevisionId() <= b.RevisionId())
  }

  predicate ByLaneReasonRevision(a: Exclusion, b: Exclusion) {
    if a.lane != b.lane then LaneName(a.lane) < LaneName(b.lane)
    else if a.reason != b.reason then ReasonName(a.reason) < ReasonName(b.reason)
    else a.revisionId <= b.revisionId
  }

  function Admitted(o: Options): Candidate -> bool {
    (c: Candidate) => Verdict(o, c).None?
  }

  function Refused(o: Options): Candidate -> bool {
    (c: Candidate) => Verdict(o, c).Some?
  }

  function Prepare(c: Candidate): Prepared {
    Prepared(c, None)
  }

  function Refuse(o: Options): Candidate -> Exclusion {
    (c: Candidate) => Exclude(c, if Verdict(o, c).Some? then Verdict(o, c).value else Included)
  }

  function Eligible(o: Options, candidates: seq<Candidate>): seq<Prepared> {
    Sort(ByLaneRevision, Map(Prepare, Filter(Admitted(o), candidates)))
  }

  function Exclusions(o: Options, candidates: seq<Candidate>): seq<Exclusion> {
    Sort(ByLaneReasonRevision, Map(Refuse(o), Filter(Refused(o), candidates)))
  }

  // What the loop has pushed for the candidates it has seen.
  function PushedEligible(o: Options, seen: seq<Candidate>): seq<Prepared> {
    Map(Prepare, Filter(Admitted(o), seen))
  }

  function PushedExclusions(o: Options, seen: seq<Candidate>): seq<Exclusion> {
    Map(Refuse(o), Filter(Refused(o), seen))
  }

  lemma FilterOneMore(o: Options, done: seq<Candidate>, c: Candidate)
    ensures PushedEligible(o, done + [c]) == PushedEligible(o, done) + if Verdict(o, c).None? then [Prepare(c)] else []
    ensures PushedExclusions(o, done + [c])
         == PushedExclusions(o, done) + if Verdict(o, c).Some? then [Exclude(c, Verdict(o, c).value)] else []
  {
    FilterSnoc(Admitted(o), done, c);
    FilterSnoc(Refused(o), done, c);
    MapSnoc(Refuse(o), Filter(Refused(o), done), c);
    MapSnoc(Prepare, Filter(Admitted(o), done), c);
  }

  method HardFilterLayeredCandidates(o: Options, candidates: seq<Candidate>)
    returns (eligible: seq<Prepared>, exclusions: seq<Exclusion>)
    ensures eligible == Eligible(o, candidates)
    ensures exclusions == Exclusions(o, candidates)
  {
    eligible, exclusions := PushVerdicts(o, candidates);
    eligible := Sort(ByLaneRevision, eligible);
    exclusions := Sort(ByLaneReasonRevision, exclusions);
  }

  method PushVerdicts(o: Options, candidates: seq<Candidate>)
    returns (eligible: seq<Prepared>, exclusions: seq<Exclusion>)
    ensures eligible == PushedEligible(o, candidates)
    ensures exclusions == PushedExclusions(o, candidates)
  {
    eligible, exclusions := [], [];
    for i := 0 to |candidates|
      invariant eligible == PushedEligible(o, candidates[..i])
      invariant exclusions == PushedExclusions(o, candidates[..i])
    {
      var c := candidates[i];
      assert candidates[..i + 1] == candidates[..i] + [c];
      FilterOneMore(o, candidates[..i], c);
      var verdict := Verdict(o, c);
      if verdict.Some? {
        exclusions := exclusions + [Exclude(c, verdict.value)];
      } else {
        eligible := eligible + [Prepare(c)];
      }
    }
    assert candidates[..|candidates|] == candidates;
  }

  // ----- What the filter lets through ---------------------------------------------

  // A candidate becomes eligible exactly when it is admissible; otherwise it gets
  // one exclusion. No candidate is lost and none is made up.
  lemma EligibleExactlyAdmissible(o: Options, candidates: seq<Candidate>, c: Candidate)
    requires c in candidates
    ensures Prepare(c) in Eligible(o, candidates) <==> Admissible(o, c)
    ensures !Admissible(o, c) ==> Refuse(o)(c) in Exclusions(o, candidates)
  {
    var kept := Filter(Admitted(o), candidates);
    SameMembers(Map(Prepare, kept), Eligible(o, candidates));
    SameMembers(Map(Refuse(o), Filter(Refused(o), candidates)), Exclusions(o, candidates));
    if Admissible(o, c) {
      MapHas(Prepare, kept, c);
    } else {
      MapHas(Refuse(o), Filter(Refused(o), candidates), c);
    }
  }

  // ----- Field by field -------------------------------------------------------------

  // Started, and not over; not secret, and sensitive only if that was asked for.
  predicate Usable(o: Options, v: Validity, s: Sensitivity) {
    && v.validFrom <= o.asOf && (v.validTo.Some? ==> o.asOf < v.validTo.value)
    && s != Secret && (s == Sensitive ==> o.includeSensitive)
  }

  // The projection is of the frontier that the request was answered from.
  ghost predicate OfFrontier(p: Projection, f: ContextFrontier) {
    match f
    case Single(frontier, transforms) => p.frontier == frontier && p.transform in transforms
    case Scoped(ledger, tombstone, scopes) =>
      exists k :: 0 <= k < |scopes| && scopes[k].scope == p.scope && (forall j :: 0 <= j < k ==> scopes[j].scope != p.scope)
        && p.frontier.ledgerEpoch == ledger && p.frontier.tombstoneEpoch == tombstone
        && p.frontier.projectionEpoch == scopes[k].projectionEpoch && p.frontier.sourceHash == scopes[k].sourceHash
        && p.frontier.projectionHash == scopes[k].projectionHash && p.transform in scopes[k].transforms
  }

  ghost predicate Welcome(o: Options, c: Candidate) {
    && c.revalidated && c.scope in o.allowedScopes
    && match c
       case MemoryCandidate(_, scope, _, _, m, _) => m.scope == scope && m.active && m.inline && Usable(o, m.validity, m.sensitivity)
       case ProjectionCandidate(lane, scope, _, _, a, p, _) =>
         && p.hasPrincipal && p.scope == scope && p.active && p.inline && p.payload.Some? && p.abstraction == a
         && (a == L2Topic ==> lane == Topic) && (a == L2Scenario ==> lane == ScenarioProcedure) && (a == L3Core ==> lane == Core)
         && (a == L2Relation ==> lane in {RelationSqlite, RelationGraph})
         && OfFrontier(p, o.frontier) && Usable(o, p.validity, p.sensitivity)
  }

  lemma {:induction false} FoundFirst(scopes: seq<ScopeFrontier>, scope: Id) returns (k: nat)
    ensures FindScope(scopes, scope).Some? ==>
      k < |scopes| && scopes[k].scope == scope && FindScope(scopes, scope) == Some(scopes[k]) && forall j :: 0 <= j < k ==> scopes[j].scope != scope
    ensures FindScope(scopes, scope).None? ==> forall j :: 0 <= j < |scopes| ==> scopes[j].scope != scope
  {
    k := 0;
    if scopes != [] && scopes[0].scope != scope {
      var i := FoundFirst(scopes[1..], scope);
      k := i + 1;
      assert forall j :: 1 <= j < |scopes| ==> scopes[j] == scopes[1..][j - 1];
    }
  }

  lemma FrontierInFields(p: Projection, f: ContextFrontier)
    ensures SameFrontier(p, f) <==> OfFrontier(p, f)
  {
    if f.Scoped? { var k := FoundFirst(f.scopes, p.scope); }
  }

  lemma AdmissibleInFields(o: Options, c: Candidate)
    ensures Admissible(o, c) <==> Welcome(o, c)
  {
    if c.ProjectionCandidate? { FrontierInFields(c.projection, o.frontier); }
  }

  // A candidate becomes eligible exactly when it is welcome, said of its fields.
  lemma EligibleInFields(o: Options, candidates: seq<Candidate>, c: Candidate)
    requires c in candidates
    ensures Prepare(c) in Eligible(o, candidates) <==> Welcome(o, c)
  {
    EligibleExactlyAdmissible(o, candidates, c);
    AdmissibleInFields(o, c);
  }

  // What each reason says is wrong with a candidate.
  ghost predicate Fault(o: Options, c: Candidate, r: Reason) {
    match r
    case CanonicalRevalidationRequired => !c.revalidated
    case ScopeExcluded => c.scope !in o.allowedScopes
    case CanonicalSourceChanged => c.MemoryCandidate? && !(c.memory.scope == c.scope && c.memory.active)
    case ContentNotInline => c.MemoryCandidate? && !c.memory.inline
    case ProjectionIneligible =>
      c.ProjectionCandidate? && var p := c.projection; !(p.hasPrincipal && p.scope == c.scope && p.active && p.inline && p.payload.Some?)
    case ProjectionLaneMismatch =>
      c.ProjectionCandidate? && var a := c.projection.abstraction;
        !(c.abstraction == a && (a == L2Topic ==> c.lane == Topic) && (a == L2Scenario ==> c.lane == ScenarioProcedure)
          && (a == L3Core ==> c.lane == Core) && (a == L2Relation ==> c.lane in {RelationSqlite, RelationGraph}))
    case ProjectionStaleFrontier => c.ProjectionCandidate? && !OfFrontier(c.projection, o.frontier)
    case SensitivityExcluded => var s := SensitivityOf(c); s == Secret || (s == Sensitive && !o.includeSensitive)
    case OutsideValidity => var v := ValidityOf(c); v.validFrom > o.asOf || (v.validTo.Some? && v.validTo.value <= o.asOf)
    case _ => false
  }

  function SensitivityOf(c: Candidate): Sensitivity {
    if c.MemoryCandidate? then c.memory.sensitivity else c.projection.sensitivity
  }

  function ValidityOf(c: Candidate): Validity {
    if c.MemoryCandidate? then c.memory.validity else c.projection.validity
  }

  // A memory is asked for validity first and for sensitivity next, a projection the
  // other way round.
  function Checks(c: Candidate): seq<Reason> {
    [CanonicalRevalidationRequired, ScopeExcluded]
    + if c.MemoryCandidate? then [CanonicalSourceChanged, OutsideValidity, SensitivityExcluded, ContentNotInline]
      else [ProjectionIneligible, ProjectionLaneMismatch, ProjectionStaleFrontier, SensitivityExcluded, OutsideValidity]
  }

  // The reason given is the first fault.
  ghost predicate FirstFault(o: Options, c: Candidate, r: Reason) {
    exists k :: 0 <= k < |Checks(c)| && Checks(c)[k] == r && Fault(o, c, r) && forall j :: 0 <= j < k ==> !Fault(o, c, Checks(c)[j])
  }

  lemma VerdictIsFirstFault(o: Options, c: Candidate, k: nat)
    requires k < |Checks(c)| && forall j :: 0 <= j < k ==> !Fault(o, c, Checks(c)[j])
    ensures Fault(o, c, Checks(c)[k]) ==> Verdict(o, c) == Some(Checks(c)[k])
  {
    if k > 0 { assert !Fault(o, c, Checks(c)[0]); }
    if k > 1 { assert !Fault(o, c, Checks(c)[1]); }
    if k > 2 { assert !Fault(o, c, Checks(c)[2]); }
    if k > 3 { assert !Fault(o, c, Checks(c)[3]); }
    if k > 4 { assert !Fault(o, c, Checks(c)[4]); }
    if k > 5 { assert !Fault(o, c, Checks(c)[5]); }
    if c.ProjectionCandidate? { FrontierInFields(c.projection, o.frontier); }
  }

  lemma {:induction false} LeastFault(o: Options, c: Candidate, n: nat) returns (k: nat)
    requires n <= |Checks(c)|
    ensures k <= n && (k < n ==> Fault(o, c, Checks(c)[k])) && forall j :: 0 <= j < k ==> !Fault(o, c, Checks(c)[j])
  {
    k := 0;
    while k < n && !Fault(o, c, Checks(c)[k])
      invariant k <= n && forall j :: 0 <= j < k ==> !Fault(o, c, Checks(c)[j])
    {
      k := k + 1;
    }
  }

  // A candidate that is left out names its first fault, in the order of the checks; one
  // without a fault is not left out.
  lemma ReasonExactly(o: Options, candidates: seq<Candidate>, c: Candidate, r: Reason)
    requires c in candidates
    ensures Verdict(o, c) == Some(r) <==> FirstFault(o, c, r)
    ensures FirstFault(o, c, r) ==> Exclude(c, r) in Exclusions(o, candidates)
  {
    EligibleExactlyAdmissible(o, candidates, c);
    var k := LeastFault(o, c, |Checks(c)|);
    if k < |Checks(c)| {
      VerdictIsFirstFault(o, c, k);
    } else {
      AdmissibleInFields(o, c);
      NoFaultIsWelcome(o, c);
    }
    if FirstFault(o, c, r) {
      var j :| 0 <= j < |Checks(c)| && Checks(c)[j] == r && Fault(o, c, r) && forall i :: 0 <= i < j ==> !Fault(o, c, Checks(c)[i]);
      VerdictIsFirstFault(o, c, j);
    }
  }

  lemma NoFaultIsWelcome(o: Options, c: Candidate)
    requires forall j :: 0 <= j < |Checks(c)| ==> !Fault(o, c, Checks(c)[j])
    ensures Welcome(o, c)
  {
    assert !Fault(o, c, Checks(c)[0]) && !Fault(o, c, Checks(c)[1]) && !Fault(o, c, Checks(c)[2]);
    assert !Fault(o, c, Checks(c)[3]) && !Fault(o, c, Checks(c)[4]) && !Fault(o, c, Checks(c)[5]);
    if c.ProjectionCandidate? { assert !Fault(o, c, Checks(c)[6]); }
  }

  // Both results go by lane name, in the order of the letters, exclusions then by
  // reason, and then by revision.
  lemma FilteredInOrder(o: Options, candidates: seq<Candidate>, j: nat, k: nat)
    ensures j < k < |Eligible(o, candidates)| ==>
      var a, b := Eligible(o, candidates)[j], Eligible(o, candidates)[k];
      LaneName(a.Lane()) <= LaneName(b.Lane()) && (a.Lane() == b.Lane() ==> a.RevisionId() <= b.RevisionId())
    ensures j < k < |Exclusions(o, candidates)| ==>
      var a, b := Exclusions(o, candidates)[j], Exclusions(o, candidates)[k];
      && LaneName(a.lane) <= LaneName(b.lane) && (a.lane == b.lane ==> ReasonName(a.reason) <= ReasonName(b.reason))
      && (a.lane == b.lane && a.reason == b.reason ==> a.revisionId <= b.revisionId)
  {
    ByLaneRevisionOrders();
    ByLaneReasonRevisionOrders();
    SortSorts(ByLaneRevision, PushedEligible(o, candidates));
    SortSorts(ByLaneReasonRevision, PushedExclusions(o, candidates));
  }

  lemma EligibleWereCandidates(o: Options, candidates: seq<Candidate>, p: Prepared)
    requires p in Eligible(o, candidates)
    ensures p.candidate in candidates && Admissible(o, p.candidate) && p.group == None
  {
    var kept := Filter(Admitted(o), candidates);
    SameMembers(Map(Prepare, kept), Eligible(o, candidates));
    var i :| 0 <= i < |kept| && Map(Prepare, kept)[i] == p;
    assert kept[i] in kept;
  }

  // ----- The order of the candidates does not matter --------------------------------

  ghost predicate DistinctSlots(candidates: seq<Candidate>) {
    forall c, d :: c in candidates && d in candidates && c.lane == d.lane && c.RevisionId() == d.RevisionId() ==> c == d
  }

  lemma LaneNamesDiffer(a: Lane, b: Lane)
    ensures LaneName(a) == LaneName(b) <==> a == b
  {
  }

  lemma ByLaneRevisionOrders()
    ensures Preorder(ByLaneRevision)
  {
  }

  lemma ByLaneReasonRevisionOrders()
    ensures Preorder(ByLaneReasonRevision)
  {
    forall a, b ensures ByLaneReasonRevision(a, b) || ByLaneReasonRevision(b, a) { }
    forall a, b, c | ByLaneReasonRevision(a, b) && ByLaneReasonRevision(b, c) ensures ByLaneReasonRevision(a, c) { }
  }

  // Permuting candidates with distinct (lane, revision) leaves both results alone.
  lemma FilterForgetsOrder(o: Options, a: seq<Candidate>, b: seq<Candidate>)
    requires multiset(a) == multiset(b) && DistinctSlots(a)
    ensures Eligible(o, a) == Eligible(o, b) && Exclusions(o, a) == Exclusions(o, b)
  {
    var ka, kb := Filter(Admitted(o), a), Filter(Admitted(o), b);
    FilterMultiset(Admitted(o), a, b);
    MapMultiset(Prepare, ka, kb);
    ByLaneRevisionOrders();
    forall x, y | x in Map(Prepare, ka) && y in Map(Prepare, ka) && ByLaneRevision(x, y) && ByLaneRevision(y, x) ensures x == y {
      var c := MappedFrom(Prepare, ka, x);
      var d := MappedFrom(Prepare, ka, y);
      LaneNamesDiffer(c.lane, d.lane);
    }
    SortForgetsOrder(ByLaneRevision, Map(Prepare, ka), Map(Prepare, kb));
    ExclusionsForgetOrder(o, a, b);
  }

  lemma ExclusionsForgetOrder(o: Options, a: seq<Candidate>, b: seq<Candidate>)
    requires multiset(a) == multiset(b) && DistinctSlots(a)
    ensures Exclusions(o, a) == Exclusions(o, b)
  {
    var ka, kb := Filter(Refused(o), a), Filter(Refused(o), b);
    FilterMultiset(Refused(o), a, b);
    MapMultiset(Refuse(o), ka, kb);
    ByLaneReasonRevisionOrders();
    forall x, y | x in Map(Refuse(o), ka) && y in Map(Refuse(o), ka) && ByLaneReasonRevision(x, y) && ByLaneReasonRevision(y, x)
      ensures x == y
    {
      var c := MappedFrom(Refuse(o), ka, x);
      var d := MappedFrom(Refuse(o), ka, y);
      LaneNamesDiffer(c.lane, d.lane);
      assert c == d;
    }
    SortForgetsOrder(ByLaneReasonRevision, Map(Refuse(o), ka), Map(Refuse(o), kb));
  }
}
