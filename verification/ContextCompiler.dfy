// compileLayeredContext as the procedure it is: it calls the stages, pushes their
// decisions into one list, sorts it, and builds the result from it.
module ContextCompiler {
  import Ordering
  import opened ContextTypes
  import opened LayeredCompiler
  import Filters = HardFilters
  import Conflicts = ConflictResolver
  import Packer = TokenPacker

  // The sum that the receipt builder folds over the shown items.
  method RecomputeTokens(shown: seq<LayeredDecision>) returns (total: nat)
    ensures total == TokenSum(shown)
  {
    total := 0;
    for i := 0 to |shown|
      invariant total + TokenSum(shown[i..]) == TokenSum(shown)
    {
      total := total + if shown[i].tokens.Some? then shown[i].tokens.value else 0;
    }
  }

  method RankLayeredCandidates(scorer: Scorer, candidates: seq<Prepared>) returns (ranked: seq<Ranked>)
    ensures ranked == Rank(scorer, candidates)
  {
    ranked := [];
    for i := 0 to |candidates|
      invariant ranked == Ordering.Map(RankOf(scorer), candidates[..i])
    {
      assert candidates[..i + 1] == candidates[..i] + [candidates[i]];
      Ordering.MapSnoc(RankOf(scorer), candidates[..i], candidates[i]);
      ranked := ranked + [Ranked(candidates[i], scorer.score(candidates[i]), ConstraintPriority(candidates[i]))];
    }
    assert candidates[..|candidates|] == candidates;
    ranked := Ordering.Sort(RankOrder, ranked);
  }

  // One decision for every packed candidate, found again by its revision.
  method DecidePacked(ranked: seq<Ranked>, packed: seq<Packer.Decision>) returns (decisions: seq<LayeredDecision>)
    ensures decisions == Ordering.Map(DecisionFor(ranked), packed)
  {
    decisions := [];
    for i := 0 to |packed|
      invariant decisions == Ordering.Map(DecisionFor(ranked), packed[..i])
    {
      assert packed[..i + 1] == packed[..i] + [packed[i]];
      Ordering.MapSnoc(DecisionFor(ranked), packed[..i], packed[i]);
      decisions := decisions + [DecisionFor(ranked)(packed[i])];
    }
    assert packed[..|packed|] == packed;
  }

  method PushExclusions(decisions: seq<LayeredDecision>, exclusions: seq<Exclusion>) returns (r: seq<LayeredDecision>)
    ensures r == decisions + Ordering.Map(ExclusionDecision, exclusions)
  {
    r := decisions;
    for i := 0 to |exclusions|
      invariant r == decisions + Ordering.Map(ExclusionDecision, exclusions[..i])
    {
      assert exclusions[..i + 1] == exclusions[..i] + [exclusions[i]];
      Ordering.MapSnoc(ExclusionDecision, exclusions[..i], exclusions[i]);
      r := r + [ExclusionDecision(exclusions[i])];
    }
    assert exclusions[..|exclusions|] == exclusions;
  }

  method BuildLayeredArtifacts(i: Settings, conflictSets: seq<Conflicts.ConflictSet>, decisions: seq<LayeredDecision>) returns (slice: Slice)
    ensures var shown := Ordering.Filter(Shown, decisions); slice == Slice(shown, TokenSum(shown), conflictSets)
  {
    var shown := Ordering.Filter(Shown, decisions);
    var total := RecomputeTokens(shown);
    slice := Slice(shown, total, conflictSets);
  }

  method CompileLayeredContext(i: Settings, candidates: seq<Candidate>) returns (r: Compiled)
    ensures r == Compile(i, candidates)
  {
    var eligible, refused := Filters.HardFilterLayeredCandidates(i.options, candidates);
    var resolved := Conflicts.ResolveConflictsAndDedupe(eligible, i.conflictSets);
    var ranked := RankLayeredCandidates(i.scorer, resolved.candidates);
    var ok, included, packed, used := Packer.PackContextItems(Ordering.Map(ToItem(i.scorer), ranked), i.budget);
    if !ok {
      return Rejected;
    }
    var decisions := DecidePacked(ranked, packed);
    decisions := PushExclusions(decisions, refused + resolved.exclusions + i.exclusions);
    decisions := Ordering.Sort(DecisionOrder, decisions);
    r := Conclude(i, Filtered(eligible, refused), resolved.conflictSets, decisions);
  }

  // The schema checks on the slice and the receipt, and the status.
  method Conclude(i: Settings, f: Filtered, conflictSets: seq<Conflicts.ConflictSet>, decisions: seq<LayeredDecision>) returns (r: Compiled)
    requires Packer.BudgetOk(i.budget)
    requires conflictSets == Resolving(i, f).conflictSets && decisions == Decisions(i, f)
    ensures r == CompileFiltered(i, f)
  {
    var slice := BuildLayeredArtifacts(i, conflictSets, decisions);
    if !SliceOk(i.budget, slice) || !ReceiptOk(decisions) {
      return Rejected;
    }
    var excluded := |Ordering.Filter(LeftOut, decisions)|;
    r := Returned(slice, decisions, excluded, StatusOf(i.degraded, |slice.items|, excluded));
  }
}
