// What the receipt of the evidence compiler says of each candidate, and which calls it
// rejects.
module EvidenceReceipt {
  import opened Ordering
  import Types = ContextTypes
  import opened JoinedIdentifiers
  import opened EvidenceCompiler

  // What each reason says is wrong with a candidate.
  predicate Fault(q: Request, c: ContextCandidate, r: Reason) {
    match r
    case CANDIDATE_ONLY => c.L1? && (c.memory.lifecycle == Working || c.memory.lifecycle == Candidate)
    case SUPERSEDED => c.L1? && c.memory.lifecycle == Superseded
    case REVOKED => c.L1? && c.memory.lifecycle == Revoked
    case QUARANTINED => c.L1? && c.memory.lifecycle == Quarantined
    case TOMBSTONED => c.L1? && c.memory.lifecycle == Purged
    case NOT_YET_VALID => c.L1? && q.asOf < c.memory.validity.validFrom
    case EXPIRED => c.L1? && c.memory.validity.validTo.Some? && c.memory.validity.validTo.value < q.asOf
    case AFTER_AS_OF => c.L0? && q.asOf < c.evidence.occurredAt.at
    case SENSITIVE_EXCLUDED => SensitivityOf(c) == Types.Sensitive && !q.includeSensitive
    case SECRET_EXCLUDED => SensitivityOf(c) == Types.Secret
    case CONTENT_NOT_INLINE => !(if c.L0? then c.evidence.inline else c.memory.inline)
    case _ => false
  }

  function SensitivityOf(c: ContextCandidate): Types.Sensitivity {
    if c.L0? then c.evidence.sensitivity else c.memory.sensitivity
  }

  function Checks(): seq<Reason> {
    [CANDIDATE_ONLY, SUPERSEDED, REVOKED, QUARANTINED, TOMBSTONED, NOT_YET_VALID, EXPIRED, AFTER_AS_OF,
     SENSITIVE_EXCLUDED, SECRET_EXCLUDED, CONTENT_NOT_INLINE]
  }

  ghost predicate ClearBefore(q: Request, c: ContextCandidate, k: nat)
    requires k <= |Checks()|
  {
    forall j :: 0 <= j < k ==> !Fault(q, c, Checks()[j])
  }

  // A candidate is refused for its first fault, in the order lifecycle, time,
  // sensitivity, content, and only for a fault.
  ghost predicate FirstFault(q: Request, c: ContextCandidate, r: Reason) {
    exists k :: 0 <= k < |Checks()| && Checks()[k] == r && Fault(q, c, r) && ClearBefore(q, c, k)
  }

  lemma ClearByName(q: Request, c: ContextCandidate, k: nat)
    requires k <= |Checks()| && ClearBefore(q, c, k)
    ensures k > 4 ==> c.L0? || c.memory.lifecycle == Active
    ensures (k > 5 ==> !Fault(q, c, NOT_YET_VALID)) && (k > 6 ==> !Fault(q, c, EXPIRED)) && (k > 7 ==> !Fault(q, c, AFTER_AS_OF))
    ensures (k > 8 ==> !Fault(q, c, SENSITIVE_EXCLUDED)) && (k > 9 ==> !Fault(q, c, SECRET_EXCLUDED))
    ensures k > 10 ==> !Fault(q, c, CONTENT_NOT_INLINE)
  {
    if k > 4 {
      assert !Fault(q, c, Checks()[0]) && !Fault(q, c, Checks()[1]) && !Fault(q, c, Checks()[2]);
      assert !Fault(q, c, Checks()[3]) && !Fault(q, c, Checks()[4]);
    }
    if k > 5 { assert !Fault(q, c, Checks()[5]); }
    if k > 6 { assert !Fault(q, c, Checks()[6]); }
    if k > 7 { assert !Fault(q, c, Checks()[7]); }
    if k > 8 { assert !Fault(q, c, Checks()[8]); }
    if k > 9 { assert !Fault(q, c, Checks()[9]); }
    if k > 10 { assert !Fault(q, c, Checks()[10]); }
  }

  lemma FaultIsRefusal(q: Request, c: ContextCandidate, k: nat)
    requires k < |Checks()| && Fault(q, c, Checks()[k]) && ClearBefore(q, c, k)
    ensures Refusal(q, c) == Some(Checks()[k])
  {
    ClearByName(q, c, k);
  }

  lemma {:induction false} LeastFault(q: Request, c: ContextCandidate, n: nat) returns (k: nat)
    requires n <= |Checks()|
    ensures k <= n && ClearBefore(q, c, k) && (k < n ==> Fault(q, c, Checks()[k]))
  {
    k := 0;
    while k < n && !Fault(q, c, Checks()[k])
      invariant k <= n && ClearBefore(q, c, k)
    {
      k := k + 1;
    }
  }

  lemma RefusedForFirstFault(q: Request, c: ContextCandidate, r: Reason)
    ensures Refusal(q, c) == Some(r) <==> FirstFault(q, c, r)
  {
    var k := LeastFault(q, c, |Checks()|);
    if k < |Checks()| { FaultIsRefusal(q, c, k); } else { ClearByName(q, c, k); }
    if FirstFault(q, c, r) {
      var j :| 0 <= j < |Checks()| && Checks()[j] == r && Fault(q, c, r) && ClearBefore(q, c, j);
      FaultIsRefusal(q, c, j);
    }
  }

  // ----- The line of a candidate ----------------------------------------------------------

  ghost predicate OwnKey(i: Input, s: seq<ContextCandidate>, k: nat)
    requires k < |s|
  {
    forall j :: 0 <= j < |s| && j != k ==> KeyOf(i.library, s[j]) != KeyOf(i.library, s[k])
  }

  lemma {:induction false} RecordedFate(i: Input, s: seq<ContextCandidate>, k: nat)
    requires k < |s| && OwnKey(i, s, k)
    ensures var key := KeyOf(i.library, s[k]);
      (if key in Recorded(i, s) then Some(Recorded(i, s)[key]) else None) == Fate(i, s, k)
    decreases |s|
  {
    var init := s[..|s| - 1];
    SameFates(i, s);
    if k < |init| {
      assert OwnKey(i, init, k) by {
        forall j | 0 <= j < |init| && j != k ensures KeyOf(i.library, init[j]) != KeyOf(i.library, init[k]) { assert init[j] == s[j]; }
      }
      RecordedFate(i, init, k);
      assert KeyOf(i.library, s[|init|]) != KeyOf(i.library, s[k]);
    } else {
      NotRecorded(i, init, s[k]);
    }
  }

  lemma NotRecorded(i: Input, s: seq<ContextCandidate>, c: ContextCandidate)
    requires forall j :: 0 <= j < |s| ==> KeyOf(i.library, s[j]) != KeyOf(i.library, c)
    ensures KeyOf(i.library, c) !in Recorded(i, s)
  {
    RecordedExactly(i, s, KeyOf(i.library, c));
  }

  // A decided candidate whose key no other one has gets a line of its own, under its own
  // identity: included with its own reasons when it is shown; left out for its first
  // fault; or, without a fault, for the budget that it exceeds.
  lemma LineExactly(i: Input, s: seq<ContextCandidate>, k: nat)
    requires k < |s| && OwnKey(i, s, k)
    ensures var (line, c) := (Lines(i, s)[k], s[k]);
      && line.memoryId == MemoryIdOf(i.library, c) && line.revisionId == RevisionIdOf(i.library, c)
      && line.lane == c.lane && line.score == Some(c.rank)
      && (line.included <==> Admissible(i.request, c) && TokenSum(i.library, Shown(i, s[..k])) + i.library.tokens(c) <= i.request.budget)
      && (line.included && c.L0? ==> line.reasons == [RANKED_EVIDENCE])
      && (line.included && c.L1? ==> |line.reasons| == |c.memory.reasons|)
      && (line.included && c.L1? ==> forall n :: 0 <= n < |c.memory.reasons| ==> line.reasons[n] == Supplied(c.memory.reasons[n]))
      && (!line.included && Admissible(i.request, c) ==> line.reasons == [BUDGET_EXCEEDED])
      && (!Admissible(i.request, c) ==> |line.reasons| == 1 && FirstFault(i.request, c, line.reasons[0]))
  {
    RecordedFate(i, s, k);
    RefusedExactly(i.request, s[k]);
    if Refusal(i.request, s[k]).None? {
      ShownExactlyWhenItFits(i, s, k);
    } else {
      RefusedForFirstFault(i.request, s[k], Refusal(i.request, s[k]).value);
    }
  }

  // A supplied exclusion is repeated after all of them.
  lemma SuppliedLines(i: Input, s: seq<ContextCandidate>, k: nat)
    requires k < |i.exclusions|
    ensures |Lines(i, s)| == |s| + |i.exclusions|
    ensures var (line, e) := (Lines(i, s)[|s| + k], i.exclusions[k]);
      !line.included && line.memoryId == e.memoryId && line.revisionId == e.revisionId && line.reasons == [e.reason]
      && line.lane == e.lane && line.score == e.score
  {
  }

  // ----- Reason codes ---------------------------------------------------------------------

  function ExclusionKey(e: ContextExclusion): string { JoinIds(e.memoryId, e.revisionId) }

  // A supplied exclusion of this key decides; without one what was recorded stays.
  lemma {:induction false} SuppliedReason(m: map<string, Reason>, exclusions: seq<ContextExclusion>, key: string)
    ensures var all := Supply(m, exclusions);
      if exists e :: e in exclusions && ExclusionKey(e) == key
      then key in all && exists e :: e in exclusions && ExclusionKey(e) == key && e.reason == all[key]
      else (key in all <==> key in m) && (key in m ==> all[key] == m[key])
    decreases |exclusions|
  {
    if exclusions != [] {
      var init, last := exclusions[..|exclusions| - 1], exclusions[|exclusions| - 1];
      SuppliedReason(m, init, key);
      assert exclusions == init + [last];
      if ExclusionKey(last) == key {
        assert last in exclusions && Supply(m, exclusions)[key] == last.reason;
      }
    }
  }

  ghost predicate NamedByLine(lines: seq<Line>, r: Reason) {
    exists d :: d in lines && !d.included && d.reasons == [r]
  }

  // Every reason code of a result is the reason of a line that is left out.
  lemma CodesAreReasons(i: Input, s: seq<ContextCandidate>, r: Reason)
    requires r in Supply(Recorded(i, s), i.exclusions).Values
    ensures NamedByLine(Lines(i, s), r)
  {
    var all := Supply(Recorded(i, s), i.exclusions);
    var key :| key in all && all[key] == r;
    SuppliedReason(Recorded(i, s), i.exclusions, key);
    if exists e :: e in i.exclusions && ExclusionKey(e) == key {
      var e :| e in i.exclusions && ExclusionKey(e) == key && e.reason == r;
      MapHas(SuppliedLine, i.exclusions, e);
      assert SuppliedLine(e) in Lines(i, s);
    } else {
      RecordedExactly(i, s, key);
      var k :| 0 <= k < |s| && KeyOf(i.library, s[k]) == key && Fate(i, s, k).Some?;
      MapHas(LineOf(i.library, Recorded(i, s)), s, s[k]);
      assert LineOf(i.library, Recorded(i, s))(s[k]) in Lines(i, s);
    }
  }

  // Supplied exclusions of one key agree on the reason, and none has the key of a decided
  // candidate.
  ghost predicate ExclusionsApart(i: Input, s: seq<ContextCandidate>) {
    && (forall d, e :: d in i.exclusions && e in i.exclusions && ExclusionKey(d) == ExclusionKey(e) ==> d.reason == e.reason)
    && (forall c, e :: c in s && e in i.exclusions ==> KeyOf(i.library, c) != ExclusionKey(e))
  }

  // Then the reason codes are exactly the reasons of the lines that are left out.
  lemma ReasonCodesExactly(i: Input, candidates: seq<ContextCandidate>, r: Reason)
    requires Compile(i, candidates).Returned?
    ensures r in Compile(i, candidates).reasonCodes ==> NamedByLine(Compile(i, candidates).receipt, r)
    ensures ExclusionsApart(i, Kept(i.library, candidates)) && NamedByLine(Compile(i, candidates).receipt, r) ==>
      r in Compile(i, candidates).reasonCodes
  {
    var s := Kept(i.library, candidates);
    if r in Compile(i, candidates).reasonCodes { CodesAreReasons(i, s, r); }
    if ExclusionsApart(i, s) && NamedByLine(Lines(i, s), r) { ReasonIsCoded(i, s, r); }
  }

  lemma ReasonIsCoded(i: Input, s: seq<ContextCandidate>, r: Reason)
    requires ExclusionsApart(i, s) && NamedByLine(Lines(i, s), r)
    ensures r in Supply(Recorded(i, s), i.exclusions).Values
  {
    var own, supplied := Map(LineOf(i.library, Recorded(i, s)), s), Map(SuppliedLine, i.exclusions);
    var d: Line :| d in own + supplied && !d.included && d.reasons == [r];
    if d in own {
      var c := MappedFrom(LineOf(i.library, Recorded(i, s)), s, d);
      SuppliedReason(Recorded(i, s), i.exclusions, KeyOf(i.library, c));
      assert Supply(Recorded(i, s), i.exclusions)[KeyOf(i.library, c)] == r;
    } else {
      var e := MappedFrom(SuppliedLine, i.exclusions, d);
      SuppliedReason(Recorded(i, s), i.exclusions, ExclusionKey(e));
      assert Supply(Recorded(i, s), i.exclusions)[ExclusionKey(e)] == r;
    }
  }

  // ----- Rejection ------------------------------------------------------------------------

  predicate NeedsProof(l: Lane) { l == SemanticVector || l == RelationGraph }

  // A call is rejected exactly for a budget outside 1 to 32000, a candidate outside the
  // scopes asked for, or a decided candidate or supplied exclusion of a lane whose
  // receipt lines need evidence.
  lemma RejectedExactly(i: Input, candidates: seq<ContextCandidate>)
    ensures Compile(i, candidates).Rejected? <==>
      || i.request.budget < 1 || i.request.budget > 32000
      || (exists c :: c in candidates && ScopeOf(c) !in i.request.scopes)
      || (exists c :: c in Kept(i.library, candidates) && NeedsProof(c.lane))
      || (exists e :: e in i.exclusions && NeedsProof(e.lane))
  {
    LanesInWords(i, Kept(i.library, candidates));
    LinesOkExactly(i, Kept(i.library, candidates));
    assert CompileKept(i, Kept(i.library, candidates)).Rejected? <==> !LinesOk(Lines(i, Kept(i.library, candidates)));
  }

  lemma LanesInWords(i: Input, s: seq<ContextCandidate>)
    ensures !OrdinaryLanes(i, s) <==> (exists c :: c in s && NeedsProof(c.lane)) || (exists e :: e in i.exclusions && NeedsProof(e.lane))
  {
  }
}
