// compileLayeredContext: filter, resolve, rank, pack, order the decisions, and
// build the slice and the receipt from them.
module LayeredCompiler {
  import opened Ordering
  import opened ContextTypes
  import Filters = HardFilters
  import Conflicts = ConflictResolver
  import Theory = ConflictTheorems
  import Packer = TokenPacker

  // The score of a candidate for the query at hand, and the token estimate of its
  // context item. Only their values matter here.
  datatype Scorer = Scorer(score: Prepared -> int, tokens: Prepared -> nat)

  datatype Ranked = Ranked(candidate: Prepared, score: int, priority: int)

  function ConstraintPriority(p: Prepared): int {
    match p.PayloadOf()
    case Some(ProcedurePayload) => 4
    case Some(CorePayload(constraints)) => if constraints > 0 then 3 else 0
    case Some(ScenarioPayload(preconditions)) => if preconditions > 0 then 2 else 0
    case _ => 0
  }

  function RankOf(s: Scorer): Prepared -> Ranked {
    (p: Prepared) => Ranked(p, s.score(p), ConstraintPriority(p))
  }

  predicate RankOrder(a: Ranked, b: Ranked) {
    if a.priority != b.priority then a.priority > b.priority
    else if a.score != b.score then a.score > b.score
    else Filters.ByLaneRevision(a.candidate, b.candidate)
  }

  function Rank(s: Scorer, candidates: seq<Prepared>): seq<Ranked> {
    Sort(RankOrder, Map(RankOf(s), candidates))
  }

  function ToItem(s: Scorer): Ranked -> Packer.Item {
    (r: Ranked) => Packer.Item(r.candidate.RevisionId(), r.candidate.Lane(), r.priority, r.score, s.tokens(r.candidate))
  }

  // A lookup in the map from revision ids, where later entries win.
  function ByKey(ranked: seq<Ranked>, key: Id): Option<Ranked> {
    if ranked == [] then None
    else if ranked[|ranked| - 1].candidate.RevisionId() == key then Some(ranked[|ranked| - 1])
    else ByKey(ranked[..|ranked| - 1], key)
  }

  // One line of the receipt; `item` is what the slice shows of an included one.
  datatype LayeredDecision = LayeredDecision(
    memoryId: Id, revisionId: Id, lane: Lane, included: bool, reason: Reason, score: Option<int>,
    tokens: Option<nat>, hasProjection: bool, hasGraphPath: bool, hasVector: bool, item: Option<Prepared>)

  function PackedDecision(r: Ranked, d: Packer.Decision): LayeredDecision {
    var c := r.candidate.candidate;
    LayeredDecision(c.MemoryId(), c.RevisionId(), c.lane, d.included, if d.included then Included else BudgetExceeded,
      Some(r.score), Some(d.item.tokens), c.ProjectionCandidate?, c.CarriesGraphPath(), c.CarriesVector(), Some(r.candidate))
  }

  function ExclusionDecision(e: Exclusion): LayeredDecision {
    LayeredDecision(e.memoryId, e.revisionId, e.lane, false, e.reason, e.score, None, false, e.hasGraphPath, e.hasVector, None)
  }

  function DecisionFor(ranked: seq<Ranked>): Packer.Decision -> LayeredDecision {
    (d: Packer.Decision) =>
      match ByKey(ranked, d.item.key)
      case Some(r) => PackedDecision(r, d)
      case None => ExclusionDecision(Exclusion(0, d.item.key, d.item.lane, BudgetExceeded, None, false, false))
  }

  predicate DecisionOrder(a: LayeredDecision, b: LayeredDecision) {
    if a.included != b.included then a.included
    else if a.lane != b.lane then LaneIndex(a.lane) < LaneIndex(b.lane)
    else a.revisionId <= b.revisionId
  }

  // Everything but the candidates.
  datatype Settings = Settings(
    exclusions: seq<Exclusion>, options: Filters.Options,
    conflictSets: seq<Conflicts.ConflictSet>, budget: nat, scorer: Scorer, degraded: bool)

  // What the compiler goes on with after the hard filter.
  datatype Filtered = Filtered(eligible: seq<Prepared>, exclusions: seq<Exclusion>)

  function Filtering(i: Settings, candidates: seq<Candidate>): Filtered {
    Filtered(Filters.Eligible(i.options, candidates), Filters.Exclusions(i.options, candidates))
  }

  function Resolving(i: Settings, f: Filtered): Conflicts.Resolved {
    Conflicts.Resolve(f.eligible, i.conflictSets)
  }

  function Ranking(i: Settings, f: Filtered): seq<Ranked> {
    Rank(i.scorer, Resolving(i, f).candidates)
  }

  function Packing(i: Settings, ranked: seq<Ranked>): seq<Packer.Decision> {
    Packer.Decisions(Map(ToItem(i.scorer), ranked), i.budget)
  }

  function PackedDecisions(i: Settings, ranked: seq<Ranked>): seq<LayeredDecision> {
    Map(DecisionFor(ranked), Packing(i, ranked))
  }

  // The exclusions of the filter, of deduplication, and those that were supplied.
  function Excluded(i: Settings, f: Filtered): seq<Exclusion> {
    f.exclusions + Resolving(i, f).exclusions + i.exclusions
  }

  function AllDecisions(i: Settings, f: Filtered): seq<LayeredDecision> {
    PackedDecisions(i, Ranking(i, f)) + Map(ExclusionDecision, Excluded(i, f))
  }

  function Decisions(i: Settings, f: Filtered): seq<LayeredDecision> {
    Sort(DecisionOrder, AllDecisions(i, f))
  }

  predicate Shown(d: LayeredDecision) {
    d.included && d.item.Some?
  }

  predicate LeftOut(d: LayeredDecision) {
    !d.included
  }

  function TokenSum(d: seq<LayeredDecision>): nat {
    if d == [] then 0 else (if d[0].tokens.Some? then d[0].tokens.value else 0) + TokenSum(d[1..])
  }

  datatype Slice = Slice(items: seq<LayeredDecision>, tokenUsed: nat, conflictSets: seq<Conflicts.ConflictSet>)

  datatype Status = OK | NO_MATCH | POLICY_EXCLUDED | DEGRADED

  datatype Compiled =
    | Returned(slice: Slice, receipt: seq<LayeredDecision>, excludedCount: nat, status: Status)
    | Rejected

  function SliceOf(i: Settings, f: Filtered): Slice {
    var shown := Filter(Shown, Decisions(i, f));
    Slice(shown, TokenSum(shown), Resolving(i, f).conflictSets)
  }

  // The refinement of a receipt item.
  predicate ReceiptItemOk(d: LayeredDecision) {
    && (d.lane == SemanticVector <==> d.hasVector)
    && (d.hasProjection ==> d.tokens.Some?)
    && (d.lane == RelationGraph <==> d.hasGraphPath)
    && (d.lane == RelationGraph ==> d.hasProjection && d.tokens.Some?)
  }

  // The refinement of the slice: its budget, and every conflict reference resolves.
  predicate SliceOk(budget: nat, s: Slice) {
    && s.tokenUsed <= budget
    && forall d :: d in s.items ==> (d.item.Some? && d.item.value.group.Some? ==>
         exists c :: c in s.conflictSets && c.group == d.item.value.group.value)
  }

  predicate ReceiptOk(decisions: seq<LayeredDecision>) {
    forall d :: d in decisions ==> ReceiptItemOk(d)
  }

  function StatusOf(degraded: bool, shown: nat, excluded: nat): Status {
    if degraded then DEGRADED else if shown > 0 then OK else if excluded > 0 then POLICY_EXCLUDED else NO_MATCH
  }

  function CompileFiltered(i: Settings, f: Filtered): Compiled {
    var decisions := Decisions(i, f);
    var slice := SliceOf(i, f);
    if Packer.BudgetOk(i.budget) && SliceOk(i.budget, slice) && ReceiptOk(decisions) then
      var excluded := |Filter(LeftOut, decisions)|;
      Returned(slice, decisions, excluded, StatusOf(i.degraded, |slice.items|, excluded))
    else Rejected
  }

  function Compile(i: Settings, candidates: seq<Candidate>): Compiled {
    CompileFiltered(i, Filtering(i, candidates))
  }
}
