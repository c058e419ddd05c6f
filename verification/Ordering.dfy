// Sorting as the repository uses it: a stable sort by a comparator, where
// `leq(a, b)` stands for "the comparator returns a number that is not positive".
module Ordering {

  // A comparator that never contradicts itself. Ties are allowed.
  ghost predicate Preorder<T(!new)>(leq: (T, T) -> bool) {
    && (forall a, b :: leq(a, b) || leq(b, a))
    && (forall a, b, c :: leq(a, b) && leq(b, c) ==> leq(a, c))
  }

  // No two different elements of `s` compare equal.
  ghost predicate Separates<T>(leq: (T, T) -> bool, s: seq<T>) {
    forall a, b :: a in s && b in s && leq(a, b) && leq(b, a) ==> a == b
  }

  ghost predicate SortedBy<T>(leq: (T, T) -> bool, s: seq<T>) {
    forall i, j :: 0 <= i < j < |s| ==> leq(s[i], s[j])
  }

  ghost predicate Distinct<T>(s: seq<T>) {
    forall i, j :: 0 <= i < j < |s| ==> s[i] != s[j]
  }

  function Insert<T>(leq: (T, T) -> bool, x: T, s: seq<T>): (r: seq<T>)
    ensures |r| == |s| + 1
    ensures multiset(r) == multiset(s) + multiset{x}
  {
    if s == [] then [x]
    else if leq(x, s[0]) then [x] + s
    else
      assert s == [s[0]] + s[1..];
      [s[0]] + Insert(leq, x, s[1..])
  }

  // Array.prototype.sort with a comparator: stable, on a copy.
  function Sort<T>(leq: (T, T) -> bool, s: seq<T>): (r: seq<T>)
    ensures |r| == |s|
    ensures multiset(r) == multiset(s)
  {
    if s == [] then []
    else
      assert s == [s[0]] + s[1..];
      Insert(leq, s[0], Sort(leq, s[1..]))
  }

  lemma {:induction false} InsertSorted<T(!new)>(leq: (T, T) -> bool, x: T, s: seq<T>)
    requires Preorder(leq) && SortedBy(leq, s)
    ensures SortedBy(leq, Insert(leq, x, s))
  {
    if s != [] && !leq(x, s[0]) {
      InsertSorted(leq, x, s[1..]);
      var t := Insert(leq, x, s[1..]);
      forall y | y in t ensures leq(s[0], y) {
        assert y in multiset(t);
        assert y == x || y in multiset(s[1..]);
      }
    }
  }

  lemma {:induction false} SortSorts<T(!new)>(leq: (T, T) -> bool, s: seq<T>)
    requires Preorder(leq)
    ensures SortedBy(leq, Sort(leq, s))
  {
    if s != [] {
      SortSorts(leq, s[1..]);
      InsertSorted(leq, s[0], Sort(leq, s[1..]));
    }
  }

  lemma Assoc<T>(a: seq<T>, b: seq<T>, c: seq<T>)
    ensures (a + b) + c == a + (b + c)
  {
  }

  // Sorting what is sorted already changes nothing.
  lemma {:induction false} SortFixed<T>(leq: (T, T) -> bool, s: seq<T>)
    requires SortedBy(leq, s)
    ensures Sort(leq, s) == s
  {
    if s != [] {
      SortFixed(leq, s[1..]);
    }
  }

  lemma SameMembers<T>(a: seq<T>, b: seq<T>)
    requires multiset(a) == multiset(b)
    ensures forall x :: x in a <==> x in b
    ensures |a| == |b|
  {
    forall x ensures x in a <==> x in b {
      assert x in multiset(a) <==> x in multiset(b);
    }
    assert |multiset(a)| == |a| && |multiset(b)| == |b|;
  }

  lemma SortedFirst<T>(leq: (T, T) -> bool, a: seq<T>, b: seq<T>)
    requires SortedBy(leq, a) && SortedBy(leq, b) && Separates(leq, a)
    requires a != [] && b != [] && forall x :: x in a <==> x in b
    ensures a[0] == b[0]
  {
    assert a[0] in b && b[0] in a;
    var i :| 0 <= i < |b| && b[i] == a[0];
    var j :| 0 <= j < |a| && a[j] == b[0];
    assert leq(a[0], b[0]) || a[0] == b[0];
    assert leq(b[0], a[0]) || a[0] == b[0];
  }

  // Two sorted arrangements of the same elements are the same sequence.
  lemma {:induction false} SortedUnique<T>(leq: (T, T) -> bool, a: seq<T>, b: seq<T>)
    requires SortedBy(leq, a) && SortedBy(leq, b)
    requires multiset(a) == multiset(b)
    requires Separates(leq, a)
    ensures a == b
  {
    SameMembers(a, b);
    if a != [] {
      SortedFirst(leq, a, b);
      HeadTail(a);
      HeadTail(b);
      assert multiset(a[1..]) == multiset(a) - multiset{a[0]};
      assert multiset(b[1..]) == multiset(b) - multiset{b[0]};
      assert a == [a[0]] + a[1..] && b == [b[0]] + b[1..];
      SortedUnique(leq, a[1..], b[1..]);
    }
  }

  // The sorted order forgets how the input was arranged.
  lemma SortForgetsOrder<T(!new)>(leq: (T, T) -> bool, a: seq<T>, b: seq<T>)
    requires Preorder(leq)
    requires multiset(a) == multiset(b)
    requires Separates(leq, a)
    ensures Sort(leq, a) == Sort(leq, b)
  {
    SortSorts(leq, a);
    SortSorts(leq, b);
    SameMembers(a, Sort(leq, a));
    SortedUnique(leq, Sort(leq, a), Sort(leq, b));
  }

  function Map<A, B>(f: A -> B, s: seq<A>): (r: seq<B>)
    ensures |r| == |s|
    ensures forall i :: 0 <= i < |s| ==> r[i] == f(s[i])
  {
    seq(|s|, i requires 0 <= i < |s| => f(s[i]))
  }

  function Filter<T>(p: T -> bool, s: seq<T>): (r: seq<T>)
    ensures forall x | x in r :: x in s && p(x)
    ensures forall x | x in s :: p(x) ==> x in r
    ensures |r| <= |s|
  {
    if s == [] then []
    else if p(s[0]) then [s[0]] + Filter(p, s[1..])
    else Filter(p, s[1..])
  }

  lemma HeadTail<T>(s: seq<T>)
    requires s != []
    ensures multiset(s) == multiset{s[0]} + multiset(s[1..])
  {
    assert s == [s[0]] + s[1..];
  }

  lemma ConsCounts<T>(x: T, t: seq<T>)
    ensures multiset([x] + t) == multiset{x} + multiset(t)
  {
  }

  lemma {:induction false} FilterSplits<T>(p: T -> bool, q: T -> bool, s: seq<T>)
    requires forall x :: x in s ==> p(x) != q(x)
    ensures multiset(Filter(p, s)) + multiset(Filter(q, s)) == multiset(s)
  {
    if s != [] {
      FilterSplits(p, q, s[1..]);
      HeadTail(s);
      if p(s[0]) { ConsCounts(s[0], Filter(p, s[1..])); } else { ConsCounts(s[0], Filter(q, s[1..])); }
    }
  }

  lemma {:induction false} FilterAll<T>(p: T -> bool, s: seq<T>)
    requires forall x :: x in s ==> p(x)
    ensures Filter(p, s) == s
  {
    if s != [] { FilterAll(p, s[1..]); }
  }

  lemma {:induction false} FilterNone<T>(p: T -> bool, s: seq<T>)
    requires forall x :: x in s ==> !p(x)
    ensures Filter(p, s) == []
  {
    if s != [] { FilterNone(p, s[1..]); }
  }

  lemma {:induction false} FilterSorted<T(!new)>(leq: (T, T) -> bool, p: T -> bool, s: seq<T>)
    requires SortedBy(leq, s)
    ensures SortedBy(leq, Filter(p, s))
  {
    if s != [] {
      FilterSorted(leq, p, s[1..]);
      forall y | y in Filter(p, s[1..]) ensures leq(s[0], y) {
        assert y in s[1..];
      }
    }
  }

  lemma {:induction false} FilterMultiset<T>(p: T -> bool, a: seq<T>, b: seq<T>)
    requires multiset(a) == multiset(b)
    ensures multiset(Filter(p, a)) == multiset(Filter(p, b))
  {
    var fa, fb := multiset(Filter(p, a)), multiset(Filter(p, b));
    forall x | x in fa + fb ensures fa[x] == fb[x] {
      FilterCount(p, a, x);
      FilterCount(p, b, x);
    }
    assert forall x :: fa[x] == fb[x] by {
      forall x ensures fa[x] == fb[x] {
        if x !in fa + fb { assert fa[x] == 0 && fb[x] == 0; }
      }
    }
  }

  lemma {:induction false} FilterCount<T>(p: T -> bool, s: seq<T>, x: T)
    ensures multiset(Filter(p, s))[x] == if p(x) then multiset(s)[x] else 0
  {
    if s != [] {
      FilterCount(p, s[1..], x);
      assert s == [s[0]] + s[1..];
    }
  }

  lemma {:induction false} FilterDistinct<T>(p: T -> bool, s: seq<T>)
    requires Distinct(s)
    ensures Distinct(Filter(p, s))
  {
    if s != [] {
      FilterDistinct(p, s[1..]);
      assert s[0] !in s[1..];
    }
  }

  lemma MapWithout<A, B>(f: A -> B, s: seq<A>, k: nat)
    requires k < |s|
    ensures multiset(Map(f, s)) == multiset(Map(f, s[..k] + s[k + 1..])) + multiset{f(s[k])}
  {
    var head, tail := Map(f, s[..k]), Map(f, s[k + 1..]);
    assert Map(f, s) == head + [f(s[k])] + tail;
    assert Map(f, s[..k] + s[k + 1..]) == head + tail;
  }

  lemma Without<T>(s: seq<T>, k: nat)
    requires k < |s|
    ensures multiset(s) == multiset(s[..k] + s[k + 1..]) + multiset{s[k]}
  {
    assert s == s[..k] + [s[k]] + s[k + 1..];
  }

  lemma MapHead<A, B>(f: A -> B, s: seq<A>)
    requires s != []
    ensures multiset(Map(f, s)) == multiset{f(s[0])} + multiset(Map(f, s[1..]))
  {
    assert Map(f, s) == [f(s[0])] + Map(f, s[1..]);
  }

  // Taking the same element out of two arrangements.
  lemma TakenFromBoth<T>(a: seq<T>, b: seq<T>, k: nat)
    requires a != [] && k < |b| && b[k] == a[0] && multiset(a) == multiset(b)
    ensures multiset(a[1..]) == multiset(b[..k] + b[k + 1..])
  {
    HeadTail(a);
    Without(b, k);
    assert multiset(a[1..]) == multiset(a) - multiset{a[0]};
    assert multiset(b[..k] + b[k + 1..]) == multiset(b) - multiset{b[k]};
  }

  lemma {:induction false} MapMultiset<A, B>(f: A -> B, a: seq<A>, b: seq<A>)
    requires multiset(a) == multiset(b)
    ensures multiset(Map(f, a)) == multiset(Map(f, b))
    decreases |a|
  {
    SameMembers(a, b);
    if a != [] {
      assert a[0] in b;
      var k :| 0 <= k < |b| && b[k] == a[0];
      TakenFromBoth(a, b, k);
      MapHead(f, a);
      MapWithout(f, b, k);
      MapMultiset(f, a[1..], b[..k] + b[k + 1..]);
    }
  }

  // A multiset without repetition comes from a sequence without repetition.
  lemma DistinctMultiset<T>(s: seq<T>)
    ensures Distinct(s) <==> forall x :: multiset(s)[x] <= 1
  {
    if Distinct(s) {
      forall x ensures multiset(s)[x] <= 1 { DistinctCount(s, x); }
    } else {
      var i, j :| 0 <= i < j < |s| && s[i] == s[j];
      assert s == s[..i] + [s[i]] + s[i + 1..j] + [s[j]] + s[j + 1..];
      assert multiset(s)[s[i]] >= 2;
    }
  }

  lemma {:induction false} DistinctCount<T>(s: seq<T>, x: T)
    requires Distinct(s)
    ensures multiset(s)[x] <= 1
  {
    if s != [] {
      DistinctCount(s[1..], x);
      assert s == [s[0]] + s[1..];
      assert s[0] !in s[1..];
    }
  }

  lemma {:induction false} FilterSnoc<T>(p: T -> bool, s: seq<T>, x: T)
    ensures Filter(p, s + [x]) == Filter(p, s) + if p(x) then [x] else []
    decreases |s|
  {
    if s == [] {
      assert s + [x] == [x];
    } else {
      assert (s + [x])[1..] == s[1..] + [x];
      FilterSnoc(p, s[1..], x);
    }
  }

  lemma MapSnoc<A, B>(f: A -> B, s: seq<A>, x: A)
    ensures Map(f, s + [x]) == Map(f, s) + [f(x)]
  {
  }

  lemma MapHas<A, B>(f: A -> B, s: seq<A>, x: A)
    requires x in s
    ensures f(x) in Map(f, s)
  {
    var i :| 0 <= i < |s| && s[i] == x;
    assert Map(f, s)[i] == f(x);
  }

  lemma MappedFrom<A, B>(f: A -> B, s: seq<A>, y: B) returns (x: A)
    requires y in Map(f, s)
    ensures x in s && f(x) == y
  {
    var i :| 0 <= i < |s| && Map(f, s)[i] == y;
    x := s[i];
  }

  // Without repetition, the members determine the multiset.
  lemma DistinctSameMembers<T(!new)>(a: seq<T>, b: seq<T>)
    requires Distinct(a) && Distinct(b) && forall x :: x in a <==> x in b
    ensures multiset(a) == multiset(b)
  {
    DistinctMultiset(a);
    DistinctMultiset(b);
    forall x ensures multiset(a)[x] == multiset(b)[x] {
      assert (x in multiset(a)) == (x in a) && (x in multiset(b)) == (x in b);
    }
  }

  ghost function Listed<T>(s: set<T>): (r: seq<T>)
    ensures Distinct(r) && forall x | x in r :: x in s
    ensures forall x | x in s :: x in r
    decreases |s|
  {
    if s == {} then [] else var x :| x in s; [x] + Listed(s - {x})
  }

  // The members of a set in order.
  ghost function Arranged<T>(leq: (T, T) -> bool, s: set<T>): seq<T> {
    Sort(leq, Listed(s))
  }

  lemma ArrangedFacts<T(!new)>(leq: (T, T) -> bool, s: set<T>)
    requires Preorder(leq)
    ensures SortedBy(leq, Arranged(leq, s)) && Distinct(Arranged(leq, s))
    ensures forall x :: x in Arranged(leq, s) <==> x in s
    ensures |Arranged(leq, s)| == |s|
  {
    SortSorts(leq, Listed(s));
    SameMembers(Listed(s), Arranged(leq, s));
    DistinctMultiset(Listed(s));
    DistinctMultiset(Arranged(leq, s));
    DistinctLength(Listed(s), s);
  }

  lemma {:induction false} DistinctLength<T(!new)>(r: seq<T>, s: set<T>)
    requires Distinct(r) && forall x :: x in r <==> x in s
    ensures |r| == |s|
    decreases |r|
  {
    if r == [] {
      assert s == {};
    } else {
      assert r == [r[0]] + r[1..] && r[0] !in r[1..];
      DistinctLength(r[1..], s - {r[0]});
    }
  }

  // Sorting any listing of a set gives its arrangement.
  lemma SortArranges<T(!new)>(leq: (T, T) -> bool, r: seq<T>, s: set<T>)
    requires Preorder(leq) && Separates(leq, r) && Distinct(r) && forall x :: x in r <==> x in s
    ensures Sort(leq, r) == Arranged(leq, s)
  {
    DistinctSameMembers(r, Listed(s));
    SortForgetsOrder(leq, r, Listed(s));
  }

  lemma {:induction false} FilterAppend<T>(p: T -> bool, a: seq<T>, b: seq<T>)
    ensures Filter(p, a + b) == Filter(p, a) + Filter(p, b)
    decreases |a|
  {
    if a == [] {
      assert a + b == b;
    } else {
      assert (a + b)[0] == a[0] && (a + b)[1..] == a[1..] + b;
      FilterAppend(p, a[1..], b);
      if p(a[0]) { Assoc([a[0]], Filter(p, a[1..]), Filter(p, b)); }
    }
  }

  lemma MapAppend<A, B>(f: A -> B, a: seq<A>, b: seq<A>)
    ensures Map(f, a + b) == Map(f, a) + Map(f, b)
  {
  }

  // ----- Stability -------------------------------------------------------------------

  // `first`, and among what it does not tell apart `second`.
  ghost predicate Then<T(!new)>(first: (T, T) -> bool, second: (T, T) -> bool, a: T, b: T) {
    first(a, b) && (first(b, a) ==> second(a, b))
  }

  ghost predicate SortedByBoth<T(!new)>(first: (T, T) -> bool, second: (T, T) -> bool, s: seq<T>) {
    forall i, j :: 0 <= i < j < |s| ==> Then(first, second, s[i], s[j])
  }

  lemma {:induction false} InsertStable<T(!new)>(first: (T, T) -> bool, second: (T, T) -> bool, x: T, s: seq<T>)
    requires Preorder(first) && SortedByBoth(first, second, s) && forall y :: y in s ==> second(x, y)
    ensures SortedByBoth(first, second, Insert(first, x, s))
  {
    if s != [] && !first(x, s[0]) {
      InsertStable(first, second, x, s[1..]);
      var t := Insert(first, x, s[1..]);
      forall y | y in t ensures Then(first, second, s[0], y) {
        assert y in multiset(t);
        assert y == x || y in multiset(s[1..]);
      }
    }
  }

  // Sorting keeps the order of what compares equal.
  lemma {:induction false} SortStable<T(!new)>(first: (T, T) -> bool, second: (T, T) -> bool, s: seq<T>)
    requires Preorder(first) && SortedBy(second, s)
    ensures SortedByBoth(first, second, Sort(first, s))
  {
    if s != [] {
      SortStable(first, second, s[1..]);
      SameMembers(s[1..], Sort(first, s[1..]));
      InsertStable(first, second, s[0], Sort(first, s[1..]));
    }
  }

  // ----- Two places -------------------------------------------------------------------

  // `a` and `b` stand at two different places.
  ghost predicate PairIn<T>(s: seq<T>, a: T, b: T) {
    exists j, k :: 0 <= j < |s| && 0 <= k < |s| && j != k && s[j] == a && s[k] == b
  }

  lemma PairInCounts<T>(s: seq<T>, j: nat, k: nat)
    requires j < |s| && k < |s| && j != k
    ensures multiset{s[j], s[k]} <= multiset(s)
  {
    var t := s[..j] + s[j + 1..];
    Without(s, j);
    assert t[if k < j then k else k - 1] == s[k];
    assert s[k] in multiset(t);
  }

  lemma CountedIsPair<T>(s: seq<T>, a: T, b: T)
    requires multiset{a, b} <= multiset(s)
    ensures PairIn(s, a, b)
  {
    assert a in multiset(s);
    var j :| 0 <= j < |s| && s[j] == a;
    var t := s[..j] + s[j + 1..];
    Without(s, j);
    assert b in multiset(t);
    var k :| 0 <= k < |t| && t[k] == b;
    assert s[if k < j then k else k + 1] == b;
  }

  lemma PairCounts<T>(s: seq<T>, a: T, b: T)
    ensures PairIn(s, a, b) <==> multiset{a, b} <= multiset(s)
  {
    if PairIn(s, a, b) {
      var j, k :| 0 <= j < |s| && 0 <= k < |s| && j != k && s[j] == a && s[k] == b;
      PairInCounts(s, j, k);
    } else if multiset{a, b} <= multiset(s) {
      CountedIsPair(s, a, b);
    }
  }

  lemma PairSameMultiset<T>(s: seq<T>, t: seq<T>, a: T, b: T)
    requires multiset(s) == multiset(t)
    ensures PairIn(s, a, b) <==> PairIn(t, a, b)
  {
    PairCounts(s, a, b);
    PairCounts(t, a, b);
  }

  lemma PairFiltered<T>(p: T -> bool, s: seq<T>, a: T, b: T)
    ensures PairIn(Filter(p, s), a, b) <==> PairIn(s, a, b) && p(a) && p(b)
  {
    PairCounts(s, a, b);
    PairCounts(Filter(p, s), a, b);
    FilterCount(p, s, a);
    FilterCount(p, s, b);
  }

  lemma PairMapped<A, B>(f: A -> B, s: seq<A>, a: A, b: A)
    requires PairIn(s, a, b)
    ensures PairIn(Map(f, s), f(a), f(b))
  {
    var j, k :| 0 <= j < |s| && 0 <= k < |s| && j != k && s[j] == a && s[k] == b;
    assert Map(f, s)[j] == f(a) && Map(f, s)[k] == f(b);
  }

  lemma PairMappedFrom<A, B>(f: A -> B, s: seq<A>, x: B, y: B) returns (a: A, b: A)
    requires PairIn(Map(f, s), x, y)
    ensures PairIn(s, a, b) && f(a) == x && f(b) == y
  {
    var j, k :| 0 <= j < |s| && 0 <= k < |s| && j != k && Map(f, s)[j] == x && Map(f, s)[k] == y;
    a, b := s[j], s[k];
  }
}
