// Identifiers joined by a colon, which may itself occur in an identifier.
module JoinedIdentifiers {

  function JoinIds(first: string, second: string): string {
    first + ":" + second
  }

  // A colon inside one of the identifiers is read as the one that joins them.
  ghost predicate Regrouped(m: string, r: string, n: string, q: string) {
    exists x: string :: n == m + ":" + x && r == x + ":" + q
  }

  // Joined identifiers are the same exactly when the parts are, or when one pair is
  // the other one regrouped.
  lemma JoinedIdsCollideExactly(m: string, r: string, n: string, q: string)
    ensures JoinIds(m, r) == JoinIds(n, q) <==> (m == n && r == q) || Regrouped(m, r, n, q) || Regrouped(n, q, m, r)
  {
    if JoinIds(m, r) == JoinIds(n, q) {
      if |m| <= |n| { JoinedIdsRegroup(m, r, n, q); } else { JoinedIdsRegroup(n, q, m, r); }
    }
    if Regrouped(m, r, n, q) { RegroupedJoin(m, r, n, q); }
    if Regrouped(n, q, m, r) { RegroupedJoin(n, q, m, r); }
  }

  lemma RegroupedJoin(m: string, r: string, n: string, q: string)
    requires Regrouped(m, r, n, q)
    ensures JoinIds(m, r) == JoinIds(n, q)
  {
    var x: string :| n == m + ":" + x && r == x + ":" + q;
    assert m + ":" + (x + ":" + q) == m + ":" + x + ":" + q;
  }

  lemma JoinedIdsRegroup(m: string, r: string, n: string, q: string)
    requires |m| <= |n| && JoinIds(m, r) == JoinIds(n, q)
    ensures (m == n && r == q) || Regrouped(m, r, n, q)
  {
    var s := JoinIds(m, r);
    assert s[..|m|] == m && s[|m|] == ':' && s[|m| + 1..] == r;
    assert s[..|n|] == n && s[|n|] == ':' && s[|n| + 1..] == q;
    if |m| < |n| {
      var x := n[|m| + 1..];
      assert n == m + ":" + x;
      assert r == x + ":" + q;
    }
  }

  // What comes before the first colon is never longer.
  lemma ColonFreeIsShorter(m: string, r: string, n: string, q: string)
    requires ':' !in m && JoinIds(m, r) == JoinIds(n, q)
    ensures |m| <= |n|
  {
    assert JoinIds(n, q)[|n|] == ':';
    assert forall k :: 0 <= k < |m| ==> JoinIds(m, r)[k] == m[k];
  }

  lemma JoinedIdsWithoutColon(m: string, r: string, n: string, q: string)
    requires ':' !in m && ':' !in n && JoinIds(m, r) == JoinIds(n, q)
    ensures m == n && r == q
  {
    ColonFreeIsShorter(m, r, n, q);
    ColonFreeIsShorter(n, q, m, r);
    assert JoinIds(m, r)[..|m|] == m && JoinIds(n, q)[..|n|] == n;
    assert JoinIds(m, r)[|m| + 1..] == r && JoinIds(n, q)[|n| + 1..] == q;
  }
}
