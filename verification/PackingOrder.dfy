// The order in which the packer decides, in numbers, and whom it prefers.
module PackingOrder {
  import opened Ordering
  import opened ContextTypes
  import opened TokenPacker

  // The higher priority, at equal priority the higher score, at equal score the lower key.
  predicate Better(a: Item, b: Item) {
    || a.priority > b.priority
    || (a.priority == b.priority && a.score > b.score)
    || (a.priority == b.priority && a.score == b.score && a.key < b.key)
  }

  // The best of the items without priority in its lane.
  ghost predicate BestOptional(candidates: seq<Item>, x: Item) {
    && x in candidates && x.priority == 0
    && forall y :: y in candidates && y.priority == 0 && y.lane == x.lane ==> y == x || Better(x, y)
  }

  ghost predicate Packable(candidates: seq<Item>) {
    UniqueKeys(candidates) && forall x :: x in candidates ==> x.priority >= 0
  }

  lemma DifferentKeys(s: seq<Item>, x: Item, y: Item)
    requires UniqueKeys(s) && x in s && y in s && x != y
    ensures x.key != y.key
  {
    var j :| 0 <= j < |s| && s[j] == x;
    var k :| 0 <= k < |s| && s[k] == y;
    assert j < k || k < j;
  }

  lemma MinimumsInNumbers(candidates: seq<Item>, x: Item)
    requires Packable(candidates)
    ensures x in Minimums(candidates) <==> BestOptional(candidates, x)
  {
    MinimumsAreBest(candidates, x);
    forall y | y in candidates && x in candidates && y != x ensures y.key != x.key {
      DifferentKeys(candidates, x, y);
    }
  }

  // ----- The order of the decisions -------------------------------------------------------

  ghost predicate InOrder(s: seq<Item>) {
    forall j, k :: 0 <= j < k < |s| ==> Better(s[j], s[k])
  }

  lemma SortedInNumbers(candidates: seq<Item>, s: seq<Item>)
    requires UniqueKeys(candidates) && SortedBy(ScoreOrder, s) && multiset(s) <= multiset(candidates)
    ensures InOrder(s)
  {
    SortedKeysUnique(candidates, s);
    forall j, k | 0 <= j < k < |s| ensures Better(s[j], s[k]) {
      assert s[j] in multiset(s) && s[k] in multiset(s);
      assert s[j] in multiset(candidates) && s[k] in multiset(candidates);
      DifferentKeys(candidates, s[j], s[k]);
    }
  }

  lemma RequiredInNumbers(candidates: seq<Item>)
    requires UniqueKeys(candidates)
    ensures InOrder(Required(candidates)) && forall x :: x in Required(candidates) <==> x in candidates && x.priority > 0
  {
    ScoreOrderOrders();
    SortSorts(ScoreOrder, Filter(IsRequired, candidates));
    SameMembers(Filter(IsRequired, candidates), Required(candidates));
    FilterWithin(IsRequired, candidates);
    SortedInNumbers(candidates, Required(candidates));
  }

  lemma OthersInNumbers(candidates: seq<Item>)
    requires UniqueKeys(candidates)
    ensures InOrder(Others(candidates)) && forall x :: x in Others(candidates) ==> x in candidates && x.priority == 0
  {
    RemainingFacts(candidates);
    FilterSorted(ScoreOrder, KeyNotIn(Keys(Minimums(candidates))), Remaining(candidates));
    FilterWithin(KeyNotIn(Keys(Minimums(candidates))), Remaining(candidates));
    FilterWithin(IsOptional, candidates);
    SortedInNumbers(candidates, Others(candidates));
  }

  lemma OthersAreNotBest(candidates: seq<Item>, x: Item)
    requires Packable(candidates) && x in Others(candidates)
    ensures !BestOptional(candidates, x)
  {
    MinimumsInNumbers(candidates, x);
  }

  // An earlier decision is never about a lower priority. Among constraint items the
  // better one is decided first; so it is of two optional items of one lane, and of two
  // optional items of which the earlier is not the best of its lane.
  lemma DecidedInOrder(candidates: seq<Item>, budget: nat, j: nat, k: nat)
    requires Packable(candidates) && j < k < |Decisions(candidates, budget)|
    ensures var a, b := Decisions(candidates, budget)[j].item, Decisions(candidates, budget)[k].item;
      && a.priority >= b.priority
      && (a.priority > 0 || a.lane == b.lane || !BestOptional(candidates, a) ==> Better(a, b))
  {
    var required, minimums, others := Required(candidates), Minimums(candidates), Others(candidates);
    var s := Ordered(candidates);
    RequiredInNumbers(candidates);
    OthersInNumbers(candidates);
    if k < |required| {
      assert s[j] == required[j] && s[k] == required[k];
    } else if j < |required| {
      assert s[j] == required[j] && s[j] in required;
      OptionalAfter(candidates, k);
    } else {
      OptionalAfter(candidates, j);
      OptionalAfter(candidates, k);
      AmongOptional(candidates, j, k);
    }
  }

  lemma AfterTwo(a: seq<Item>, b: seq<Item>, c: seq<Item>, k: nat)
    requires |a| <= k < |a + b + c|
    ensures (a + b + c)[k] == if k < |a| + |b| then b[k - |a|] else c[k - |a| - |b|]
  {
  }

  lemma OptionalAfter(candidates: seq<Item>, k: nat)
    requires Packable(candidates) && |Required(candidates)| <= k < |Ordered(candidates)|
    ensures Ordered(candidates)[k] in candidates && Ordered(candidates)[k].priority == 0
  {
    var n, m := |Required(candidates)|, |Minimums(candidates)|;
    AfterTwo(Required(candidates), Minimums(candidates), Others(candidates), k);
    if k < n + m {
      MinimumsInNumbers(candidates, Minimums(candidates)[k - n]);
    } else {
      OthersInNumbers(candidates);
      assert Others(candidates)[k - n - m] in Others(candidates);
    }
  }

  lemma AmongOptional(candidates: seq<Item>, j: nat, k: nat)
    requires Packable(candidates) && |Required(candidates)| <= j < k < |Ordered(candidates)|
    ensures var a, b := Ordered(candidates)[j], Ordered(candidates)[k];
      a.lane == b.lane || !BestOptional(candidates, a) ==> Better(a, b)
  {
    var n, m := |Required(candidates)|, |Minimums(candidates)|;
    if j < n + m {
      FromMinimum(candidates, j, k);
    } else {
      AfterTwo(Required(candidates), Minimums(candidates), Others(candidates), j);
      AfterTwo(Required(candidates), Minimums(candidates), Others(candidates), k);
      OthersInNumbers(candidates);
    }
  }

  lemma FromMinimum(candidates: seq<Item>, j: nat, k: nat)
    requires Packable(candidates) && j < k < |Ordered(candidates)|
    requires |Required(candidates)| <= j < |Required(candidates)| + |Minimums(candidates)|
    ensures BestOptional(candidates, Ordered(candidates)[j])
    ensures Ordered(candidates)[j].lane == Ordered(candidates)[k].lane ==> Better(Ordered(candidates)[j], Ordered(candidates)[k])
  {
    var a := Minimums(candidates)[j - |Required(candidates)|];
    AfterTwo(Required(candidates), Minimums(candidates), Others(candidates), j);
    MinimumsInNumbers(candidates, a);
    OptionalAfter(candidates, k);
    OrderedDistinct(candidates);
  }

  lemma OrderedDistinct(candidates: seq<Item>)
    requires Packable(candidates)
    ensures Distinct(Ordered(candidates))
  {
    MinimumsAndOthers(candidates);
    FilterSplits(IsRequired, IsOptional, candidates);
    SortedKeysUnique(candidates, Ordered(candidates));
  }

  // ----- Whom the budget prefers ------------------------------------------------------------

  // The tokens used before item `k` is decided.
  function UsedBefore(items: seq<Item>, budget: nat, k: nat): nat
    requires k <= |items|
  {
    Used(Greedy(items[..k], 0, budget))
  }

  lemma IncludedExactly(items: seq<Item>, budget: nat, k: nat)
    requires k < |items|
    ensures Greedy(items, 0, budget)[k].included <==> UsedBefore(items, budget, k) + items[k].tokens <= budget
    ensures UsedBefore(items, budget, k) <= UsedBefore(items, budget, k + 1)
  {
    var before := items[..k];
    assert items[..k + 1] == before + [items[k]];
    assert items == items[..k + 1] + items[k + 1..];
    GreedyPrefix(items[..k + 1], items[k + 1..], 0, budget);
    GreedySnoc(before, 0, budget, items[k]);
    UsedSnoc(Greedy(before, 0, budget), Decision(items[k], UsedBefore(items, budget, k) + items[k].tokens <= budget));
    assert Greedy(items, 0, budget)[k] == Greedy(items, 0, budget)[..k + 1][k];
  }

  lemma {:induction false} UsedBeforeGrows(items: seq<Item>, budget: nat, j: nat, k: nat)
    requires j <= k <= |items|
    ensures UsedBefore(items, budget, j) <= UsedBefore(items, budget, k)
    decreases k
  {
    if j < k {
      UsedBeforeGrows(items, budget, j, k - 1);
      IncludedExactly(items, budget, k - 1);
    }
  }

  lemma EarlierFitsToo(items: seq<Item>, budget: nat, j: nat, k: nat)
    requires j < k < |items| && items[j].tokens <= items[k].tokens && Greedy(items, 0, budget)[k].included
    ensures Greedy(items, 0, budget)[j].included
  {
    IncludedExactly(items, budget, j);
    IncludedExactly(items, budget, k);
    UsedBeforeGrows(items, budget, j, k);
  }

  lemma PlaceOf(candidates: seq<Item>, budget: nat, a: Item) returns (j: nat)
    requires Packable(candidates) && a in candidates
    ensures j < |Decisions(candidates, budget)| && Decisions(candidates, budget)[j].item == a
  {
    var d := Decisions(candidates, budget);
    EveryCandidateDecidedOnce(candidates, budget);
    SameMembers(Map(ItemOf, d), candidates);
    var x := MappedFrom(ItemOf, d, a);
    j :| 0 <= j < |d| && d[j] == x;
  }

  lemma BetterComesFirst(candidates: seq<Item>, budget: nat, j: nat, k: nat)
    requires Packable(candidates) && j < |Decisions(candidates, budget)| && k < |Decisions(candidates, budget)|
    requires var a, b := Decisions(candidates, budget)[j].item, Decisions(candidates, budget)[k].item;
      Better(a, b) && (a.priority > 0 || a.lane == b.lane)
    ensures j < k
  {
    if k < j { DecidedInOrder(candidates, budget, k, j); }
  }

  // Of two constraint items, or of two optional ones of a lane, the worse one is never
  // included while the better one, if it needs no more tokens, is left out; nor is an
  // optional one while a constraint item that needs no more is left out.
  lemma BetterIsIncludedFirst(candidates: seq<Item>, budget: nat, a: Item, b: Item)
    requires Packable(candidates) && a in candidates && b in candidates
    requires Better(a, b) && (a.priority > 0 || a.lane == b.lane) && a.tokens <= b.tokens
    ensures Decision(b, true) in Decisions(candidates, budget) ==> Decision(a, true) in Decisions(candidates, budget)
  {
    var d := Decisions(candidates, budget);
    if Decision(b, true) in d {
      var j := PlaceOf(candidates, budget, a);
      var k :| 0 <= k < |d| && d[k] == Decision(b, true);
      BetterComesFirst(candidates, budget, j, k);
      EarlierFitsToo(Ordered(candidates), budget, j, k);
      assert d[j] == Decision(a, true);
    }
  }
}
