// Whom the layered compiler shows when not everything fits, and how it reports.
module LayeredOrder {
  import opened Ordering
  import opened ContextTypes
  import opened LayeredCompiler
  import opened LayeredTheorems
  import Conflicts = ConflictResolver
  import Theory = ConflictTheorems
  import Packer = TokenPacker
  import Packing = PackingOrder

  function ItemFor(i: Settings, p: Prepared): Packer.Item {
    Packer.Item(p.RevisionId(), p.Lane(), ConstraintPriority(p), i.scorer.score(p), i.scorer.tokens(p))
  }

  ghost predicate ShownIn(i: Settings, f: Filtered, p: Prepared) {
    exists d :: d in SliceOf(i, f).items && d.item == Some(p)
  }

  lemma RankedFor(i: Settings, f: Filtered, p: Prepared) returns (r: Ranked)
    requires p in Resolving(i, f).candidates
    ensures r in Ranking(i, f) && r.candidate == p && ToItem(i.scorer)(r) == ItemFor(i, p)
    ensures RankedWell(Ranking(i, f)) && ByKey(Ranking(i, f), p.RevisionId()) == Some(r)
  {
    r := RankOf(i.scorer)(p);
    MapHas(RankOf(i.scorer), Resolving(i, f).candidates, p);
    SameMembers(Map(RankOf(i.scorer), Resolving(i, f).candidates), Ranking(i, f));
    RankingIsWell(i, f);
    ByKeyFinds(Ranking(i, f), r);
  }

  // A retained candidate is shown exactly when the packer includes its item.
  lemma ShownExactlyWhenPacked(i: Settings, f: Filtered, p: Prepared)
    requires p in Resolving(i, f).candidates
    ensures ShownIn(i, f, p) <==> Packer.Decision(ItemFor(i, p), true) in LayeredCompiler.Packing(i, Ranking(i, f))
  {
    var r := RankedFor(i, f, p);
    var packed, x := LayeredCompiler.Packing(i, Ranking(i, f)), Packer.Decision(ItemFor(i, p), true);
    if x in packed {
      MapHas(DecisionFor(Ranking(i, f)), packed, x);
      DecisionsSplit(i, f, PackedDecision(r, x));
      assert PackedDecision(r, x) in SliceOf(i, f).items;
    }
    forall d | d in SliceOf(i, f).items && d.item == Some(p) ensures x in packed {
      ShownIsPacked(i, f, d);
    }
  }

  lemma ShownIsPacked(i: Settings, f: Filtered, d: LayeredDecision)
    requires d in SliceOf(i, f).items
    ensures d.item.Some? && Packer.Decision(ItemFor(i, d.item.value), true) in LayeredCompiler.Packing(i, Ranking(i, f))
  {
    var r, x := ShownFromPacked(i, f, d);
    RankedFacts(i.scorer, Resolving(i, f).candidates);
  }

  lemma ShownFromPacked(i: Settings, f: Filtered, d: LayeredDecision) returns (r: Ranked, x: Packer.Decision)
    requires d in SliceOf(i, f).items
    ensures r in Ranking(i, f) && x in LayeredCompiler.Packing(i, Ranking(i, f)) && x.item == ToItem(i.scorer)(r) && x.included
    ensures d.item == Some(r.candidate)
  {
    DecisionsSplit(i, f, d);
    ExclusionsAreNotShown(Excluded(i, f));
    RankingIsWell(i, f);
    r, x := PackedFromRanked(i, Ranking(i, f), d);
  }

  // ----- Preference -----------------------------------------------------------------------

  // Procedures before cores with constraints before scenarios with preconditions before
  // everything else.
  function Level(p: Prepared): nat {
    match p.PayloadOf()
    case None => 0
    case Some(payload) =>
      if payload.ProcedurePayload? then 3
      else if payload.CorePayload? && payload.constraints != 0 then 2
      else if payload.ScenarioPayload? && payload.preconditions != 0 then 1
      else 0
  }

  lemma LevelsOrder(p: Prepared, q: Prepared)
    ensures ConstraintPriority(p) > ConstraintPriority(q) <==> Level(p) > Level(q)
    ensures ConstraintPriority(p) > 0 <==> Level(p) > 0
  {
  }

  predicate Preferred(i: Settings, p: Prepared, q: Prepared) {
    || Level(p) > Level(q)
    || (Level(p) == Level(q) && i.scorer.score(p) > i.scorer.score(q))
    || (Level(p) == Level(q) && i.scorer.score(p) == i.scorer.score(q) && p.RevisionId() < q.RevisionId())
  }

  // Of two retained candidates of which the first is preferred and needs no more tokens,
  // the second is never shown without the first, if the first is a constraint or both
  // are of one lane.
  lemma PreferredIsShown(i: Settings, f: Filtered, p: Prepared, q: Prepared)
    requires p in Resolving(i, f).candidates && q in Resolving(i, f).candidates
    requires Preferred(i, p, q) && (Level(p) > 0 || p.Lane() == q.Lane()) && i.scorer.tokens(p) <= i.scorer.tokens(q)
    ensures ShownIn(i, f, q) ==> ShownIn(i, f, p)
  {
    var items := Map(ToItem(i.scorer), Ranking(i, f));
    var r := RankedFor(i, f, p);
    var s := RankedFor(i, f, q);
    MapHas(ToItem(i.scorer), Ranking(i, f), r);
    MapHas(ToItem(i.scorer), Ranking(i, f), s);
    ItemsAreUnique(i.scorer, Ranking(i, f));
    LevelsOrder(p, q);
    LevelsOrder(q, p);
    Packing.BetterIsIncludedFirst(items, i.budget, ItemFor(i, p), ItemFor(i, q));
    ShownExactlyWhenPacked(i, f, p);
    ShownExactlyWhenPacked(i, f, q);
  }

  lemma RankOrderOrders()
    ensures Preorder(RankOrder)
  {
  }

  // The ranking goes by level and score, then by lane name and revision.
  lemma RankedInOrder(i: Settings, f: Filtered, j: nat, k: nat)
    requires j < k < |Ranking(i, f)|
    ensures var a, b := Ranking(i, f)[j], Ranking(i, f)[k];
      && Level(a.candidate) >= Level(b.candidate)
      && (Level(a.candidate) == Level(b.candidate) ==> a.score >= b.score)
      && (Level(a.candidate) == Level(b.candidate) && a.score == b.score ==> LaneName(a.candidate.Lane()) <= LaneName(b.candidate.Lane()))
      && (Level(a.candidate) == Level(b.candidate) && a.score == b.score && a.candidate.Lane() == b.candidate.Lane() ==>
            a.candidate.RevisionId() <= b.candidate.RevisionId())
      && a.score == i.scorer.score(a.candidate)
  {
    var ranked := Ranking(i, f);
    RankOrderOrders();
    SortSorts(RankOrder, Map(RankOf(i.scorer), Resolving(i, f).candidates));
    SameMembers(Map(RankOf(i.scorer), Resolving(i, f).candidates), ranked);
    assert RankOrder(ranked[j], ranked[k]) && ranked[j] in ranked && ranked[k] in ranked;
    var a := MappedFrom(RankOf(i.scorer), Resolving(i, f).candidates, ranked[j]);
    var b := MappedFrom(RankOf(i.scorer), Resolving(i, f).candidates, ranked[k]);
    LevelsOrder(a, b);
    LevelsOrder(b, a);
  }

  // ----- Receipt and status -----------------------------------------------------------------

  lemma DecisionOrderOrders()
    ensures Preorder(DecisionOrder)
  {
  }

  // What is included comes first, then lane by lane, then by revision.
  lemma ReceiptInOrder(i: Settings, f: Filtered, j: nat, k: nat)
    requires j < k < |Decisions(i, f)|
    ensures var a, b := Decisions(i, f)[j], Decisions(i, f)[k];
      && (b.included ==> a.included)
      && (a.included == b.included ==> LaneIndex(a.lane) <= LaneIndex(b.lane))
      && (a.included == b.included && a.lane == b.lane ==> a.revisionId <= b.revisionId)
  {
    DecisionOrderOrders();
    SortSorts(DecisionOrder, AllDecisions(i, f));
    assert DecisionOrder(Decisions(i, f)[j], Decisions(i, f)[k]);
  }

  // A line that is included says so, and carries its item; one that the packer left out
  // names the budget; every other line is an exclusion with its own reason.
  lemma ReceiptReasons(i: Settings, f: Filtered, d: LayeredDecision)
    requires d in Decisions(i, f)
    ensures d.included ==> d.reason == Included && d.item.Some?
    ensures !d.included && d.item.Some? ==> d.reason == BudgetExceeded
    ensures d.item.None? ==> exists e :: e in Excluded(i, f) && d.reason == e.reason && d.revisionId == e.revisionId
  {
    DecisionsSplit(i, f, d);
    if d in PackedDecisions(i, Ranking(i, f)) {
      RankingIsWell(i, f);
      var r, x := PackedFromRanked(i, Ranking(i, f), d);
    } else {
      var e := MappedFrom(ExclusionDecision, Excluded(i, f), d);
    }
  }

  // The status read off slice and receipt alone.
  lemma StatusMeaning(i: Settings, candidates: seq<Candidate>)
    requires Compile(i, candidates).Returned?
    ensures var r := Compile(i, candidates);
      && (r.status == DEGRADED <==> i.degraded)
      && (r.status == OK <==> !i.degraded && r.slice.items != [])
      && (r.status == NO_MATCH <==> !i.degraded && r.receipt == [])
      && |r.slice.items| + r.excludedCount == |r.receipt|
      && (forall d :: d in r.slice.items <==> d in r.receipt && d.included)
  {
    var f := Filtering(i, candidates);
    var d := Decisions(i, f);
    forall x | x in d ensures Shown(x) != LeftOut(x) && (Shown(x) <==> x.included) { ReceiptReasons(i, f, x); }
    FilterSplits(Shown, LeftOut, d);
    assert |multiset(d)| == |d| && |multiset(Filter(Shown, d))| == |Filter(Shown, d)| && |multiset(Filter(LeftOut, d))| == |Filter(LeftOut, d)|;
  }
}
