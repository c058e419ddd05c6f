// Greedy packing of ranked items into the token budget.
module TokenPacker {
  import opened Ordering
  import opened ContextTypes

  datatype Item = Item(key: Id, lane: Lane, priority: int, score: int, tokens: nat)

  datatype Decision = Decision(item: Item, included: bool)

  const LANE_ORDER: seq<Lane> := [RecentL1, Topic, ScenarioProcedure, Core, RelationSqlite, RelationGraph, SemanticVector]

  predicate ScoreOrder(a: Item, b: Item) {
    if a.priority != b.priority then a.priority > b.priority
    else if a.score != b.score then a.score > b.score
    else a.key <= b.key
  }

  predicate IsRequired(i: Item) { i.priority > 0 }

  predicate IsOptional(i: Item) { i.priority == 0 }

  function Required(candidates: seq<Item>): seq<Item> {
    Sort(ScoreOrder, Filter(IsRequired, candidates))
  }

  function Remaining(candidates: seq<Item>): seq<Item> {
    Sort(ScoreOrder, Filter(IsOptional, candidates))
  }

  function FirstOf(lane: Lane, s: seq<Item>): seq<Item> {
    if s == [] then [] else if s[0].lane == lane then [s[0]] else FirstOf(lane, s[1..])
  }

  function FirstOfEach(lanes: seq<Lane>, s: seq<Item>): seq<Item> {
    if lanes == [] then [] else FirstOf(lanes[0], s) + FirstOfEach(lanes[1..], s)
  }

  function Minimums(candidates: seq<Item>): seq<Item> {
    FirstOfEach(LANE_ORDER, Remaining(candidates))
  }

  function Keys(s: seq<Item>): set<Id> {
    set i | i in s :: i.key
  }

  function KeyIn(keys: set<Id>): Item -> bool {
    (i: Item) => i.key in keys
  }

  function KeyNotIn(keys: set<Id>): Item -> bool {
    (i: Item) => i.key !in keys
  }

  function Others(candidates: seq<Item>): seq<Item> {
    Filter(KeyNotIn(Keys(Minimums(candidates))), Remaining(candidates))
  }

  function Ordered(candidates: seq<Item>): seq<Item> {
    Required(candidates) + Minimums(candidates) + Others(candidates)
  }

  function Greedy(items: seq<Item>, used: nat, budget: nat): (d: seq<Decision>)
    ensures |d| == |items| && forall i :: 0 <= i < |items| ==> d[i].item == items[i]
    decreases |items|
  {
    if items == [] then []
    else if used + items[0].tokens > budget then [Decision(items[0], false)] + Greedy(items[1..], used, budget)
    else [Decision(items[0], true)] + Greedy(items[1..], used + items[0].tokens, budget)
  }

  function Used(d: seq<Decision>): nat {
    if d == [] then 0 else (if d[0].included then d[0].item.tokens else 0) + Used(d[1..])
  }

  predicate BudgetOk(budget: int) {
    1 <= budget <= 32000
  }

  function Decisions(candidates: seq<Item>, budget: nat): seq<Decision> {
    Greedy(Ordered(candidates), 0, budget)
  }

  function IncludedItems(d: seq<Decision>): seq<Item> {
    if d == [] then [] else (if d[0].included then [d[0].item] else []) + IncludedItems(d[1..])
  }

  // ----- The procedure --------------------------------------------------------------

  lemma {:induction false} GreedySnoc(items: seq<Item>, used: nat, budget: nat, x: Item)
    ensures var d, after := Greedy(items, used, budget), used + Used(Greedy(items, used, budget));
      Greedy(items + [x], used, budget) == d + [Decision(x, after + x.tokens <= budget)]
    decreases |items|
  {
    if items == [] {
      assert items + [x] == [x];
    } else {
      assert (items + [x])[1..] == items[1..] + [x];
      GreedySnoc(items[1..], if used + items[0].tokens > budget then used else used + items[0].tokens, budget, x);
    }
  }

  lemma {:induction false} UsedSnoc(d: seq<Decision>, x: Decision)
    ensures Used(d + [x]) == Used(d) + if x.included then x.item.tokens else 0
    ensures IncludedItems(d + [x]) == IncludedItems(d) + if x.included then [x.item] else []
    decreases |d|
  {
    if d == [] {
      assert d + [x] == [x];
    } else {
      assert (d + [x])[1..] == d[1..] + [x];
      UsedSnoc(d[1..], x);
    }
  }

  // The loop: what does not fit is left out, and the loop goes on.
  method PackInOrder(ordered: seq<Item>, budget: nat)
    returns (included: seq<Item>, decisions: seq<Decision>, tokenUsed: nat)
    ensures decisions == Greedy(ordered, 0, budget)
    ensures included == IncludedItems(decisions) && tokenUsed == Used(decisions)
  {
    included, decisions, tokenUsed := [], [], 0;
    for i := 0 to |ordered|
      invariant decisions == Greedy(ordered[..i], 0, budget)
      invariant included == IncludedItems(decisions)
      invariant tokenUsed == Used(decisions)
    {
      var candidate := ordered[i];
      assert ordered[..i + 1] == ordered[..i] + [candidate];
      GreedySnoc(ordered[..i], 0, budget, candidate);
      var fits := tokenUsed + candidate.tokens <= budget;
      UsedSnoc(decisions, Decision(candidate, fits));
      if fits {
        included := included + [candidate];
        tokenUsed := tokenUsed + candidate.tokens;
      }
      decisions := decisions + [Decision(candidate, fits)];
    }
    assert ordered[..|ordered|] == ordered;
  }

  method PackContextItems(candidates: seq<Item>, budget: int)
    returns (ok: bool, included: seq<Item>, decisions: seq<Decision>, tokenUsed: nat)
    ensures ok <==> BudgetOk(budget)
    ensures ok ==>
      && decisions == Decisions(candidates, budget)
      && included == IncludedItems(decisions)
      && tokenUsed == Used(decisions)
  {
    if budget < 1 || budget > 32000 {
      return false, [], [], 0;
    }
    included, decisions, tokenUsed := PackInOrder(Ordered(candidates), budget);
    ok := true;
  }

  // ----- Budget -----------------------------------------------------------------------

  lemma {:induction false} GreedyFits(items: seq<Item>, used: nat, budget: nat)
    requires used <= budget
    ensures used + Used(Greedy(items, used, budget)) <= budget
    ensures forall d :: d in Greedy(items, used, budget) && !d.included ==>
              used + Used(Greedy(items, used, budget)) + d.item.tokens > budget
    decreases |items|
  {
    if items != [] {
      GreedyFits(items[1..], if used + items[0].tokens > budget then used else used + items[0].tokens, budget);
    }
  }

  // The packed context stays within its budget, and nothing that was left out would
  // still fit in.
  lemma PackingFitsAndIsMaximal(candidates: seq<Item>, budget: nat)
    ensures Used(Decisions(candidates, budget)) <= budget
    ensures forall d :: d in Decisions(candidates, budget) && !d.included ==>
              Used(Decisions(candidates, budget)) + d.item.tokens > budget
  {
    GreedyFits(Ordered(candidates), 0, budget);
  }

  // ----- Every candidate is decided once ----------------------------------------------

  ghost predicate UniqueKeys(s: seq<Item>) {
    forall i, j :: 0 <= i < j < |s| ==> s[i].key != s[j].key
  }

  lemma ScoreOrderOrders()
    ensures Preorder(ScoreOrder)
  {
  }

  lemma {:induction false} FirstOfFacts(lane: Lane, s: seq<Item>)
    ensures |FirstOf(lane, s)| <= 1
    ensures forall x :: x in FirstOf(lane, s) ==> x in s && x.lane == lane
    ensures SortedBy(ScoreOrder, s) ==> forall x, y :: x in FirstOf(lane, s) && y in s && y.lane == lane ==> x == y || ScoreOrder(x, y)
    ensures (exists y :: y in s && y.lane == lane) ==> FirstOf(lane, s) != []
    decreases |s|
  {
    if s != [] {
      assert s == [s[0]] + s[1..];
      if s[0].lane != lane { FirstOfFacts(lane, s[1..]); }
    }
  }

  lemma {:induction false} FirstOfEachFacts(lanes: seq<Lane>, s: seq<Item>)
    requires Distinct(lanes)
    ensures Distinct(FirstOfEach(lanes, s))
    ensures forall x :: x in FirstOfEach(lanes, s) <==> x.lane in lanes && x in FirstOf(x.lane, s)
    decreases |lanes|
  {
    if lanes != [] {
      FirstOfEachFacts(lanes[1..], s);
      FirstOfFacts(lanes[0], s);
      var first, rest := FirstOf(lanes[0], s), FirstOfEach(lanes[1..], s);
      forall x | x in rest ensures x !in first {
        assert x.lane in lanes[1..] && lanes[0] !in lanes[1..];
      }
      assert FirstOfEach(lanes, s) == first + rest;
      forall x ensures x in first + rest <==> x.lane in lanes && x in FirstOf(x.lane, s) {
        assert x.lane in lanes <==> x.lane == lanes[0] || x.lane in lanes[1..];
        FirstOfFacts(x.lane, s);
      }
    }
  }

  lemma EveryLane(l: Lane)
    ensures l in LANE_ORDER
  {
    match l
    case RecentL1 => assert LANE_ORDER[0] == l;
    case Topic => assert LANE_ORDER[1] == l;
    case ScenarioProcedure => assert LANE_ORDER[2] == l;
    case Core => assert LANE_ORDER[3] == l;
    case RelationSqlite => assert LANE_ORDER[4] == l;
    case RelationGraph => assert LANE_ORDER[5] == l;
    case SemanticVector => assert LANE_ORDER[6] == l;
  }

  // An optional candidate that no optional candidate of its lane beats.
  ghost predicate BestOfLane(candidates: seq<Item>, x: Item) {
    && x in candidates && IsOptional(x)
    && forall y :: y in candidates && IsOptional(y) && y.lane == x.lane ==> ScoreOrder(x, y)
  }

  lemma KeysIdentify(s: seq<Item>, x: Item, y: Item)
    requires UniqueKeys(s) && x in s && y in s && x.key == y.key
    ensures x == y
  {
    var i :| 0 <= i < |s| && s[i] == x;
    var j :| 0 <= j < |s| && s[j] == y;
  }

  lemma RemainingFacts(candidates: seq<Item>)
    ensures SortedBy(ScoreOrder, Remaining(candidates))
    ensures forall x :: x in Remaining(candidates) <==> x in candidates && IsOptional(x)
  {
    ScoreOrderOrders();
    SortSorts(ScoreOrder, Filter(IsOptional, candidates));
    SameMembers(Filter(IsOptional, candidates), Remaining(candidates));
  }

  lemma LaneOrderDistinct()
    ensures Distinct(LANE_ORDER)
  {
  }

  // The lane minimums are exactly the best optional candidate of each lane.
  lemma MinimumsAreBest(candidates: seq<Item>, x: Item)
    requires UniqueKeys(candidates)
    ensures x in Minimums(candidates) <==> BestOfLane(candidates, x)
  {
    var remaining := Remaining(candidates);
    RemainingFacts(candidates);
    LaneOrderDistinct();
    FirstOfEachFacts(LANE_ORDER, remaining);
    EveryLane(x.lane);
    FirstOfFacts(x.lane, remaining);
    if BestOfLane(candidates, x) {
      var f := FirstOf(x.lane, remaining)[0];
      assert f in FirstOf(x.lane, remaining);
      KeysIdentify(candidates, f, x);
    }
  }

  lemma {:induction false} SortedKeysUnique(candidates: seq<Item>, s: seq<Item>)
    requires UniqueKeys(candidates) && multiset(s) <= multiset(candidates)
    ensures Distinct(s)
  {
    assert Distinct(candidates);
    DistinctMultiset(candidates);
    forall x ensures multiset(s)[x] <= 1 { assert multiset(s)[x] <= multiset(candidates)[x]; }
    DistinctMultiset(s);
  }

  lemma {:induction false} FilterWithin(f: Item -> bool, s: seq<Item>)
    ensures multiset(Filter(f, s)) <= multiset(s)
  {
    forall x ensures multiset(Filter(f, s))[x] <= multiset(s)[x] { FilterCount(f, s, x); }
  }

  lemma MinimumsAndOthers(candidates: seq<Item>)
    requires UniqueKeys(candidates)
    ensures multiset(Minimums(candidates)) + multiset(Others(candidates)) == multiset(Remaining(candidates))
  {
    var remaining, minimums := Remaining(candidates), Minimums(candidates);
    var keys := Keys(minimums);
    RemainingFacts(candidates);
    LaneOrderDistinct();
    FirstOfEachFacts(LANE_ORDER, remaining);
    FilterSplits(KeyIn(keys), KeyNotIn(keys), remaining);
    FilterWithin(IsOptional, candidates);
    FilterWithin(KeyIn(keys), remaining);
    SortedKeysUnique(candidates, Filter(KeyIn(keys), remaining));
    forall x ensures x in minimums <==> x in Filter(KeyIn(keys), remaining) {
      if x in minimums { FirstOfFacts(x.lane, remaining); }
      if x in Filter(KeyIn(keys), remaining) {
        var m :| m in minimums && m.key == x.key;
        FirstOfFacts(m.lane, remaining);
        KeysIdentify(candidates, m, x);
      }
    }
    DistinctSameMembers(minimums, Filter(KeyIn(keys), remaining));
  }

  function ItemOf(d: Decision): Item { d.item }

  // With unique keys and no negative priority every candidate is decided exactly once.
  lemma EveryCandidateDecidedOnce(candidates: seq<Item>, budget: nat)
    requires UniqueKeys(candidates) && forall x :: x in candidates ==> x.priority >= 0
    ensures multiset(Map(ItemOf, Decisions(candidates, budget))) == multiset(candidates)
  {
    MinimumsAndOthers(candidates);
    FilterSplits(IsRequired, IsOptional, candidates);
    assert Map(ItemOf, Decisions(candidates, budget)) == Ordered(candidates);
  }

  // ----- Required items do not depend on optional ones ----------------------------------

  lemma {:induction false} GreedyPrefix(a: seq<Item>, b: seq<Item>, used: nat, budget: nat)
    ensures Greedy(a, used, budget) == Greedy(a + b, used, budget)[..|a|]
    decreases |a|
  {
    if a != [] {
      assert (a + b)[1..] == a[1..] + b;
      GreedyPrefix(a[1..], b, if used + a[0].tokens > budget then used else used + a[0].tokens, budget);
    }
  }

  lemma {:induction false} FilterTwice(f: Item -> bool, g: Item -> bool, s: seq<Item>)
    requires forall x :: f(x) ==> !g(x)
    ensures Filter(f, Filter(f, s)) == Filter(f, s) && Filter(g, Filter(f, s)) == []
  {
    FilterAll(f, Filter(f, s));
    FilterNone(g, Filter(f, s));
  }

  // The constraint items are decided first and exactly as if there were no others.
  lemma RequiredIgnoreOptional(candidates: seq<Item>, budget: nat)
    ensures var required := Filter(IsRequired, candidates);
      && Decisions(required, budget) == Decisions(candidates, budget)[..|required|]
      && (forall d :: d in Decisions(candidates, budget)[..|required|] ==> IsRequired(d.item))
  {
    var required := Filter(IsRequired, candidates);
    RequiredAlone(candidates);
    Assoc(Required(candidates), Minimums(candidates), Others(candidates));
    GreedyPrefix(Required(candidates), Minimums(candidates) + Others(candidates), 0, budget);
    SameMembers(required, Required(candidates));
    GreedyItems(Required(candidates), budget);
  }

  lemma RequiredAlone(candidates: seq<Item>)
    ensures Ordered(Filter(IsRequired, candidates)) == Required(candidates)
  {
    var required := Filter(IsRequired, candidates);
    FilterTwice(IsRequired, IsOptional, candidates);
    assert Remaining(required) == [];
    NoFirst(LANE_ORDER);
    assert Minimums(required) == [] && Others(required) == [];
  }

  lemma GreedyItems(items: seq<Item>, budget: nat)
    ensures forall d :: d in Greedy(items, 0, budget) ==> d.item in items
  {
  }

  lemma {:induction false} NoFirst(lanes: seq<Lane>)
    ensures FirstOfEach(lanes, []) == []
    decreases |lanes|
  {
    if lanes != [] { NoFirst(lanes[1..]); }
  }

  // ----- The best of each lane first ------------------------------------------------------

  // The best optional item of a lane is tried before any optional item that is not
  // the best of its own lane.
  lemma BestOfLaneFirst(candidates: seq<Item>, budget: nat, i: nat, j: nat)
    requires UniqueKeys(candidates) && forall x :: x in candidates ==> x.priority >= 0
    requires i < |Decisions(candidates, budget)| && j < |Decisions(candidates, budget)|
    requires BestOfLane(candidates, Decisions(candidates, budget)[i].item)
    requires IsOptional(Decisions(candidates, budget)[j].item) && !BestOfLane(candidates, Decisions(candidates, budget)[j].item)
    ensures i < j
  {
    var ordered, required, minimums := Ordered(candidates), Required(candidates), Minimums(candidates);
    MinimumsAreBest(candidates, ordered[i]);
    MinimumsAreBest(candidates, ordered[j]);
    SameMembers(Filter(IsRequired, candidates), required);
    MinimumsAndOthers(candidates);
    FilterSplits(IsRequired, IsOptional, candidates);
    SortedKeysUnique(candidates, ordered);
    PositionInMiddle(required, minimums, Others(candidates), i, j);
  }

  lemma PositionInMiddle(a: seq<Item>, b: seq<Item>, c: seq<Item>, i: nat, j: nat)
    requires Distinct(a + b + c) && i < |a + b + c| && j < |a + b + c|
    requires (a + b + c)[i] in b && (a + b + c)[j] !in a && (a + b + c)[j] !in b
    ensures i < j
  {
    var s := a + b + c;
    var k :| 0 <= k < |b| && b[k] == s[i];
    assert s[|a| + k] == b[k];
  }

  // With unique keys the arrangement of the candidates does not matter.
  lemma PackingForgetsOrder(a: seq<Item>, b: seq<Item>, budget: nat)
    requires multiset(a) == multiset(b) && UniqueKeys(a)
    ensures Decisions(a, budget) == Decisions(b, budget)
  {
    ScoreOrderOrders();
    FilterMultiset(IsRequired, a, b);
    FilterMultiset(IsOptional, a, b);
    KeysSeparate(a, Filter(IsRequired, a));
    KeysSeparate(a, Filter(IsOptional, a));
    SortForgetsOrder(ScoreOrder, Filter(IsRequired, a), Filter(IsRequired, b));
    SortForgetsOrder(ScoreOrder, Filter(IsOptional, a), Filter(IsOptional, b));
  }

  lemma KeysSeparate(a: seq<Item>, s: seq<Item>)
    requires UniqueKeys(a) && forall x :: x in s ==> x in a
    ensures Separates(ScoreOrder, s)
  {
    forall x, y | x in s && y in s && ScoreOrder(x, y) && ScoreOrder(y, x) ensures x == y {
      KeysIdentify(a, x, y);
    }
  }
}
