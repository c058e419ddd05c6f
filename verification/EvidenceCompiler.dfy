// compileContext, the compiler of raw evidence and memories: order the candidates,
// drop what is known already, classify, fill the budget, and account for the rest.
module EvidenceCompiler {
  import opened Ordering
  import opened JoinedIdentifiers
  import Types = ContextTypes

  datatype Option<+T> = None | Some(value: T)

  datatype Lifecycle = Active | Working | Candidate | Superseded | Revoked | Quarantined | Purged

  // Identifiers may contain colons, so they are strings here. A timestamp is its
  // milliseconds (`at`) and the place of its text in the order of `localeCompare`.
  datatype Timestamp = Timestamp(at: int, place: int)

  datatype Evidence = Evidence(
    evidenceId: string, contentHash: string, scope: nat, occurredAt: Timestamp,
    sensitivity: Types.Sensitivity, inline: bool)

  datatype Memory = Memory(
    memoryId: string, revisionId: string, scope: nat, lifecycle: Lifecycle, validity: Types.Validity,
    recordedAt: Timestamp, sensitivity: Types.Sensitivity, inline: bool, evidenceIds: seq<string>, reasons: seq<nat>)

  // Lanes are free text; the receipt's schema gives a meaning to two of them.
  datatype Lane = SemanticVector | RelationGraph | OtherLane(name: nat)

  datatype ContextCandidate =
    | L0(evidence: Evidence, rank: int, lane: Lane)
    | L1(memory: Memory, rank: int, lane: Lane)

  datatype Reason =
    | CANDIDATE_ONLY | SUPERSEDED | REVOKED | QUARANTINED | TOMBSTONED | NOT_YET_VALID | EXPIRED | AFTER_AS_OF
    | SENSITIVE_EXCLUDED | SECRET_EXCLUDED | CONTENT_NOT_INLINE | BUDGET_EXCEEDED | RANKED_EVIDENCE | Supplied(code: nat)

  datatype ContextExclusion = ContextExclusion(
    memoryId: string, revisionId: string, reason: Reason, lane: Lane, score: Option<int>)

  datatype Request = Request(scopes: set<nat>, asOf: int, budget: int, includeSensitive: bool)

  // The hexadecimal digests behind the identity of evidence, the token estimate of
  // a candidate's item, and the place of an identifier in the order of `localeCompare`.
  datatype Library = Library(
    evidenceDigest: string -> string, contentDigest: (string, string) -> string,
    tokens: ContextCandidate -> nat, place: string -> int)

  datatype Input = Input(request: Request, exclusions: seq<ContextExclusion>, degraded: bool, library: Library)

  // Digests hold no colon and are different for different evidence.
  ghost predicate SoundDigests(l: Library) {
    && (forall a :: ':' !in l.evidenceDigest(a))
    && (forall a, b :: l.evidenceDigest(a) == l.evidenceDigest(b) ==> a == b)
  }

  // An item's provenance text is never empty.
  ghost predicate CostlyItems(l: Library) {
    forall c :: l.tokens(c) > 0
  }

  // ----- Identity and order -----------------------------------------------------------

  function ScopeOf(c: ContextCandidate): nat {
    match c case L0(e, _, _) => e.scope case L1(m, _, _) => m.scope
  }

  function MemoryIdOf(l: Library, c: ContextCandidate): string {
    match c case L0(e, _, _) => "l0m:" + l.evidenceDigest(e.evidenceId) case L1(m, _, _) => m.memoryId
  }

  function RevisionIdOf(l: Library, c: ContextCandidate): string {
    match c
    case L0(e, _, _) => "l0r:" + l.contentDigest(e.evidenceId, e.contentHash)
    case L1(m, _, _) => m.revisionId
  }

  // The key under which a candidate's exclusion is recorded.
  function KeyOf(l: Library, c: ContextCandidate): string {
    JoinIds(MemoryIdOf(l, c), RevisionIdOf(l, c))
  }

  // The key under which candidates are deduplicated.
  function IdentityOf(c: ContextCandidate): string {
    match c
    case L0(e, _, _) => "evidence:" + e.evidenceId
    case L1(m, _, _) => "memory:" + JoinIds(m.memoryId, m.revisionId)
  }

  function StampOf(c: ContextCandidate): int {
    match c case L0(e, _, _) => e.occurredAt.place case L1(m, _, _) => m.recordedAt.place
  }

  function IdOf(c: ContextCandidate): string {
    match c case L0(e, _, _) => e.evidenceId case L1(m, _, _) => m.revisionId
  }

  // By rank, then the most recent first, then by identifier.
  function CandidateOrder(l: Library): (ContextCandidate, ContextCandidate) -> bool {
    (a: ContextCandidate, b: ContextCandidate) =>
      if a.rank != b.rank then a.rank < b.rank
      else if StampOf(a) != StampOf(b) then StampOf(a) > StampOf(b)
      else l.place(IdOf(a)) <= l.place(IdOf(b))
  }

  function FirstOfEach(s: seq<ContextCandidate>, seen: set<string>): (r: seq<ContextCandidate>)
    decreases |s|
  {
    if s == [] then []
    else if IdentityOf(s[0]) in seen then FirstOfEach(s[1..], seen)
    else [s[0]] + FirstOfEach(s[1..], seen + {IdentityOf(s[0])})
  }

  function Repeats(s: seq<ContextCandidate>, seen: set<string>): (r: seq<ContextCandidate>)
    decreases |s|
  {
    if s == [] then []
    else if IdentityOf(s[0]) in seen then [s[0]] + Repeats(s[1..], seen)
    else Repeats(s[1..], seen + {IdentityOf(s[0])})
  }

  function Ranked(l: Library, candidates: seq<ContextCandidate>): seq<ContextCandidate> {
    Sort(CandidateOrder(l), candidates)
  }

  function IdentityUnique(l: Library, candidates: seq<ContextCandidate>): seq<ContextCandidate> {
    FirstOfEach(Ranked(l, candidates), {})
  }

  function GovernedEvidence(s: seq<ContextCandidate>): set<string> {
    set c, e | c in s && c.L1? && e in c.memory.evidenceIds :: e
  }

  function Governed(ids: set<string>): ContextCandidate -> bool {
    (c: ContextCandidate) => c.L0? && c.evidence.evidenceId in ids
  }

  function Ungoverned(ids: set<string>): ContextCandidate -> bool {
    (c: ContextCandidate) => c.L1? || c.evidence.evidenceId !in ids
  }

  // The candidates that are decided.
  function Kept(l: Library, candidates: seq<ContextCandidate>): seq<ContextCandidate> {
    var unique := IdentityUnique(l, candidates);
    Filter(Ungoverned(GovernedEvidence(unique)), unique)
  }

  // ----- Classification and budget ----------------------------------------------------

  function LifecycleReason(s: Lifecycle): Reason
    requires !s.Active?
  {
    match s
    case Working | Candidate => CANDIDATE_ONLY
    case Superseded => SUPERSEDED
    case Revoked => REVOKED
    case Quarantined => QUARANTINED
    case Purged => TOMBSTONED
  }

  function PrivacyReason(q: Request, sensitivity: Types.Sensitivity, inline: bool): Option<Reason> {
    if sensitivity == Types.Sensitive && !q.includeSensitive then Some(SENSITIVE_EXCLUDED)
    else if sensitivity == Types.Secret then Some(SECRET_EXCLUDED)
    else if !inline then Some(CONTENT_NOT_INLINE)
    else None
  }

  // Why a candidate may not be shown whatever the budget is.
  function Refusal(q: Request, c: ContextCandidate): Option<Reason> {
    match c
    case L0(e, _, _) =>
      if e.occurredAt.at > q.asOf then Some(AFTER_AS_OF) else PrivacyReason(q, e.sensitivity, e.inline)
    case L1(m, _, _) =>
      if !m.lifecycle.Active? then Some(LifecycleReason(m.lifecycle))
      else if m.validity.validFrom > q.asOf then Some(NOT_YET_VALID)
      else if m.validity.validTo.Some? && m.validity.validTo.value < q.asOf then Some(EXPIRED)
      else PrivacyReason(q, m.sensitivity, m.inline)
  }

  // Tokens used once all of `s` is decided.
  function Used(i: Input, s: seq<ContextCandidate>): nat {
    if s == [] then 0
    else
      var last, before := s[|s| - 1], Used(i, s[..|s| - 1]);
      if Refusal(i.request, last).None? && before + i.library.tokens(last) <= i.request.budget
      then before + i.library.tokens(last) else before
  }

  // None: shown.
  function Fate(i: Input, s: seq<ContextCandidate>, k: nat): Option<Reason>
    requires k < |s|
  {
    if Refusal(i.request, s[k]).Some? then Refusal(i.request, s[k])
    else if Used(i, s[..k]) + i.library.tokens(s[k]) > i.request.budget then Some(BUDGET_EXCEEDED)
    else None
  }

  function Shown(i: Input, s: seq<ContextCandidate>): seq<ContextCandidate> {
    if s == [] then []
    else Shown(i, s[..|s| - 1]) + if Fate(i, s, |s| - 1).None? then [s[|s| - 1]] else []
  }

  // The exclusions by key, the last writer winning.
  function Recorded(i: Input, s: seq<ContextCandidate>): map<string, Reason> {
    if s == [] then map[]
    else
      var before := Recorded(i, s[..|s| - 1]);
      match Fate(i, s, |s| - 1)
      case Some(why) => before[KeyOf(i.library, s[|s| - 1]) := why]
      case None => before
  }

  function Supply(m: map<string, Reason>, exclusions: seq<ContextExclusion>): map<string, Reason> {
    if exclusions == [] then m
    else
      var last := exclusions[|exclusions| - 1];
      Supply(m, exclusions[..|exclusions| - 1])[JoinIds(last.memoryId, last.revisionId) := last.reason]
  }

  // ----- Receipt and result -----------------------------------------------------------

  datatype Line = Line(
    memoryId: string, revisionId: string, included: bool, reasons: seq<Reason>, lane: Lane, score: Option<int>)

  function OwnReasons(c: ContextCandidate): seq<Reason> {
    match c
    case L0(_, _, _) => [RANKED_EVIDENCE]
    case L1(m, _, _) => seq(|m.reasons|, k requires 0 <= k < |m.reasons| => Supplied(m.reasons[k]))
  }

  function LineOf(l: Library, recorded: map<string, Reason>): ContextCandidate -> Line {
    (c: ContextCandidate) =>
      var key := KeyOf(l, c);
      Line(MemoryIdOf(l, c), RevisionIdOf(l, c), key !in recorded,
           if key in recorded then [recorded[key]] else OwnReasons(c), c.lane, Some(c.rank))
  }

  function SuppliedLine(e: ContextExclusion): Line {
    Line(e.memoryId, e.revisionId, false, [e.reason], e.lane, e.score)
  }

  function Lines(i: Input, s: seq<ContextCandidate>): seq<Line> {
    Map(LineOf(i.library, Recorded(i, s)), s) + Map(SuppliedLine, i.exclusions)
  }

  datatype Status = OK | NO_MATCH | POLICY_EXCLUDED | DEGRADED

  datatype Slice = Slice(items: seq<ContextCandidate>, tokenUsed: nat)

  datatype Compiled =
    | Returned(status: Status, slice: Option<Slice>, receipt: seq<Line>, excludedCount: nat, reasonCodes: set<Reason>)
    | Rejected

  const MAX_BUDGET := 32000

  predicate RequestOk(q: Request, candidates: seq<ContextCandidate>) {
    1 <= q.budget <= MAX_BUDGET && forall c :: c in candidates ==> ScopeOf(c) in q.scopes
  }

  // A receipt line of one of these lanes needs evidence that no line here carries.
  predicate LinesOk(lines: seq<Line>) {
    forall d :: d in lines ==> !d.lane.SemanticVector? && !d.lane.RelationGraph?
  }

  function StatusOf(i: Input, shown: nat, kept: nat): Status {
    if i.degraded then DEGRADED
    else if shown > 0 then OK
    else if kept == 0 && i.exclusions == [] then NO_MATCH
    else POLICY_EXCLUDED
  }

  function CompileKept(i: Input, s: seq<ContextCandidate>): Compiled {
    var shown, excluded := Shown(i, s), Supply(Recorded(i, s), i.exclusions);
    if !LinesOk(Lines(i, s)) then Rejected
    else Returned(StatusOf(i, |shown|, |s|), if shown == [] then None else Some(Slice(shown, Used(i, s))),
                  Lines(i, s), |excluded.Keys|, excluded.Values)
  }

  function Compile(i: Input, candidates: seq<ContextCandidate>): Compiled {
    if RequestOk(i.request, candidates) then CompileKept(i, Kept(i.library, candidates)) else Rejected
  }

  // ----- The procedure ----------------------------------------------------------------

  lemma {:induction false} FirstOfEachSnoc(s: seq<ContextCandidate>, seen: set<string>, x: ContextCandidate)
    ensures FirstOfEach(s + [x], seen) ==
      FirstOfEach(s, seen) + if IdentityOf(x) in seen + Identities(s) then [] else [x]
    decreases |s|
  {
    if s == [] {
      assert s + [x] == [x];
    } else {
      assert (s + [x])[1..] == s[1..] + [x];
      IdentitiesSplit(s, seen);
      FirstOfEachSnoc(s[1..], if IdentityOf(s[0]) in seen then seen else seen + {IdentityOf(s[0])}, x);
    }
  }

  lemma IdentitiesSplit(s: seq<ContextCandidate>, seen: set<string>)
    requires s != []
    ensures seen + Identities(s) == seen + {IdentityOf(s[0])} + Identities(s[1..])
    ensures IdentityOf(s[0]) in seen ==> seen + Identities(s) == seen + Identities(s[1..])
  {
    assert s == [s[0]] + s[1..];
    assert Identities(s) == {IdentityOf(s[0])} + Identities(s[1..]);
  }

  function Identities(s: seq<ContextCandidate>): set<string> {
    set c | c in s :: IdentityOf(c)
  }

  // The filter with its set of identities seen so far.
  method DropRepeats(ordered: seq<ContextCandidate>) returns (unique: seq<ContextCandidate>)
    ensures unique == FirstOfEach(ordered, {})
  {
    var seen: set<string> := {};
    unique := [];
    for k := 0 to |ordered|
      invariant seen == Identities(ordered[..k])
      invariant unique == FirstOfEach(ordered[..k], {})
    {
      var candidate := ordered[k];
      assert ordered[..k + 1] == ordered[..k] + [candidate];
      FirstOfEachSnoc(ordered[..k], {}, candidate);
      if IdentityOf(candidate) !in seen {
        seen := seen + {IdentityOf(candidate)};
        unique := unique + [candidate];
      }
    }
    assert ordered[..|ordered|] == ordered;
  }

  // The loop over the classified candidates.
  method FillBudget(i: Input, s: seq<ContextCandidate>)
    returns (included: seq<ContextCandidate>, exclusions: map<string, Reason>, tokenUsed: nat)
    ensures included == Shown(i, s) && exclusions == Recorded(i, s) && tokenUsed == Used(i, s)
  {
    included, exclusions, tokenUsed := [], map[], 0;
    for k := 0 to |s|
      invariant included == Shown(i, s[..k]) && exclusions == Recorded(i, s[..k]) && tokenUsed == Used(i, s[..k])
    {
      var candidate := s[k];
      assert s[..k + 1][..k] == s[..k];
      var refusal := Refusal(i.request, candidate);
      if refusal.Some? {
        exclusions := exclusions[KeyOf(i.library, candidate) := refusal.value];
      } else if tokenUsed + i.library.tokens(candidate) > i.request.budget {
        exclusions := exclusions[KeyOf(i.library, candidate) := BUDGET_EXCEEDED];
      } else {
        included := included + [candidate];
        tokenUsed := tokenUsed + i.library.tokens(candidate);
      }
    }
    assert s[..|s|] == s;
  }

  method PushSupplied(i: Input, recorded: map<string, Reason>, lines: seq<Line>)
    returns (exclusions: map<string, Reason>, receipt: seq<Line>)
    ensures exclusions == Supply(recorded, i.exclusions)
    ensures receipt == lines + Map(SuppliedLine, i.exclusions)
  {
    exclusions, receipt := recorded, lines;
    for k := 0 to |i.exclusions|
      invariant exclusions == Supply(recorded, i.exclusions[..k])
      invariant receipt == lines + Map(SuppliedLine, i.exclusions[..k])
    {
      var e := i.exclusions[k];
      assert i.exclusions[..k + 1] == i.exclusions[..k] + [e];
      MapSnoc(SuppliedLine, i.exclusions[..k], e);
      exclusions := exclusions[JoinIds(e.memoryId, e.revisionId) := e.reason];
      receipt := receipt + [SuppliedLine(e)];
    }
    assert i.exclusions[..|i.exclusions|] == i.exclusions;
  }

  method CompileContext(i: Input, candidates: seq<ContextCandidate>) returns (r: Compiled)
    ensures r == Compile(i, candidates)
  {
    if !RequestOk(i.request, candidates) {
      return Rejected;
    }
    var unique := DropRepeats(Sort(CandidateOrder(i.library), candidates));
    unique := Filter(Ungoverned(GovernedEvidence(unique)), unique);
    var included, exclusions, tokenUsed := FillBudget(i, unique);
    WithinBudget(i, unique);
    if included != [] && tokenUsed > i.request.budget {
      return Rejected;
    }
    var slice := if included == [] then None else Some(Slice(included, tokenUsed));
    var status := StatusOf(i, |included|, |unique|);
    var receipt := Map(LineOf(i.library, exclusions), unique);
    exclusions, receipt := PushSupplied(i, exclusions, receipt);
    if !LinesOk(receipt) {
      return Rejected;
    }
    r := Returned(status, slice, receipt, |exclusions.Keys|, exclusions.Values);
  }

  // ----- Every candidate is accounted for ---------------------------------------------

  lemma {:induction false} FirstsAndRepeats(s: seq<ContextCandidate>, seen: set<string>)
    ensures multiset(FirstOfEach(s, seen)) + multiset(Repeats(s, seen)) == multiset(s)
    decreases |s|
  {
    if s != [] {
      HeadTail(s);
      if IdentityOf(s[0]) in seen {
        FirstsAndRepeats(s[1..], seen);
        ConsCounts(s[0], Repeats(s[1..], seen));
      } else {
        FirstsAndRepeats(s[1..], seen + {IdentityOf(s[0])});
        ConsCounts(s[0], FirstOfEach(s[1..], seen + {IdentityOf(s[0])}));
      }
    }
  }

  // When it happened, or was recorded.
  function TimeOf(c: ContextCandidate): Timestamp {
    if c.L0? then c.evidence.occurredAt else c.memory.recordedAt
  }

  function IdentifierOf(c: ContextCandidate): string {
    if c.L0? then c.evidence.evidenceId else c.memory.revisionId
  }

  // Of two decided candidates the one with the lower rank is decided first; at equal rank
  // the more recent one, and at equal times the one with the smaller identifier.
  lemma DecidedByRankAndRecency(l: Library, candidates: seq<ContextCandidate>, j: nat, k: nat)
    requires j < k < |Kept(l, candidates)|
    ensures var a, b := Kept(l, candidates)[j], Kept(l, candidates)[k];
      && a.rank <= b.rank
      && (a.rank == b.rank ==> TimeOf(a).place >= TimeOf(b).place)
      && (a.rank == b.rank && TimeOf(a).place == TimeOf(b).place ==> l.place(IdentifierOf(a)) <= l.place(IdentifierOf(b)))
  {
    var order := CandidateOrder(l);
    SortSorts(order, candidates);
    FirstsSorted(order, Ranked(l, candidates), {});
    FilterSorted(order, Ungoverned(GovernedEvidence(IdentityUnique(l, candidates))), IdentityUnique(l, candidates));
    var a, b := Kept(l, candidates)[j], Kept(l, candidates)[k];
    assert order(a, b);
    assert StampOf(a) == TimeOf(a).place && StampOf(b) == TimeOf(b).place;
    assert IdOf(a) == IdentifierOf(a) && IdOf(b) == IdentifierOf(b);
  }

  lemma {:induction false} FirstsSorted(leq: (ContextCandidate, ContextCandidate) -> bool, s: seq<ContextCandidate>, seen: set<string>)
    requires SortedBy(leq, s)
    ensures SortedBy(leq, FirstOfEach(s, seen)) && forall c :: c in FirstOfEach(s, seen) ==> c in s
    decreases |s|
  {
    if s != [] {
      var next := if IdentityOf(s[0]) in seen then seen else seen + {IdentityOf(s[0])};
      FirstsSorted(leq, s[1..], next);
      forall c | c in FirstOfEach(s[1..], next) ensures leq(s[0], c) { assert c in s[1..]; }
    }
  }

  // Each candidate is decided once, or repeats an identity, or is evidence that a
  // memory among the candidates already stands for.
  lemma CandidatesArePartitioned(l: Library, candidates: seq<ContextCandidate>)
    ensures var unique := IdentityUnique(l, candidates);
      multiset(candidates) == multiset(Kept(l, candidates)) + multiset(Repeats(Ranked(l, candidates), {}))
        + multiset(Filter(Governed(GovernedEvidence(unique)), unique))
  {
    var unique := IdentityUnique(l, candidates);
    FirstsAndRepeats(Ranked(l, candidates), {});
    FilterSplits(Ungoverned(GovernedEvidence(unique)), Governed(GovernedEvidence(unique)), unique);
  }

  ghost predicate OnePerIdentity(s: seq<ContextCandidate>) {
    forall j, k :: 0 <= j < k < |s| ==> IdentityOf(s[j]) != IdentityOf(s[k])
  }

  lemma {:induction false} FirstsFacts(s: seq<ContextCandidate>, seen: set<string>)
    ensures OnePerIdentity(FirstOfEach(s, seen))
    ensures forall c :: c in FirstOfEach(s, seen) ==> c in s && IdentityOf(c) !in seen
    decreases |s|
  {
    if s != [] {
      if IdentityOf(s[0]) in seen {
        FirstsFacts(s[1..], seen);
      } else {
        FirstsFacts(s[1..], seen + {IdentityOf(s[0])});
        forall c | c in FirstOfEach(s[1..], seen + {IdentityOf(s[0])}) ensures IdentityOf(c) != IdentityOf(s[0]) { }
      }
    }
  }

  // The first of an identity stands for every later one.
  lemma {:induction false} FirstStandsFor(l: Library, s: seq<ContextCandidate>, seen: set<string>, c: ContextCandidate)
    returns (u: ContextCandidate)
    requires SortedBy(CandidateOrder(l), s) && c in s && IdentityOf(c) !in seen
    ensures u in FirstOfEach(s, seen) && IdentityOf(u) == IdentityOf(c) && CandidateOrder(l)(u, c)
    decreases |s|
  {
    if IdentityOf(s[0]) == IdentityOf(c) {
      u := s[0];
      if c != s[0] { var k :| 0 < k < |s| && s[k] == c; }
    } else {
      u := FirstStandsFor(l, s[1..], if IdentityOf(s[0]) in seen then seen else seen + {IdentityOf(s[0])}, c);
    }
  }

  // Every identity is represented once, by its best candidate.
  lemma BestOfEachIdentity(l: Library, candidates: seq<ContextCandidate>, c: ContextCandidate)
    returns (u: ContextCandidate)
    requires c in candidates
    ensures u in candidates && u in IdentityUnique(l, candidates) && OnePerIdentity(IdentityUnique(l, candidates))
    ensures IdentityOf(u) == IdentityOf(c)
    ensures forall o :: o in candidates && IdentityOf(o) == IdentityOf(c) ==> CandidateOrder(l)(u, o)
  {
    var s := Ranked(l, candidates);
    SortSorts(CandidateOrder(l), candidates);
    SameMembers(candidates, s);
    u := FirstStandsFor(l, s, {}, c);
    FirstsFacts(s, {});
    forall o | o in candidates && IdentityOf(o) == IdentityOf(c) ensures CandidateOrder(l)(u, o) {
      var v := FirstStandsFor(l, s, {}, o);
      OneOfIdentity(IdentityUnique(l, candidates), u, v);
    }
  }

  lemma OneOfIdentity(s: seq<ContextCandidate>, u: ContextCandidate, v: ContextCandidate)
    requires OnePerIdentity(s) && u in s && v in s && IdentityOf(u) == IdentityOf(v)
    ensures u == v
  {
    var j :| 0 <= j < |s| && s[j] == u;
    var k :| 0 <= k < |s| && s[k] == v;
    assert j == k;
  }

  // Evidence is decided exactly when no memory that is left after deduplication
  // cites it, whatever becomes of that memory.
  lemma EvidenceDecidedExactly(l: Library, candidates: seq<ContextCandidate>, c: ContextCandidate)
    requires c in candidates && c.L0?
    ensures (exists k :: k in Kept(l, candidates) && k.L0? && k.evidence.evidenceId == c.evidence.evidenceId)
       <==> c.evidence.evidenceId !in GovernedEvidence(IdentityUnique(l, candidates))
  {
    var u := BestOfEachIdentity(l, candidates, c);
    assert IdentityOf(u)[0] == IdentityOf(c)[0];
    assert u.L0?;
    assert IdentityOf(u)[9..] == u.evidence.evidenceId && IdentityOf(c)[9..] == c.evidence.evidenceId;
    if c.evidence.evidenceId !in GovernedEvidence(IdentityUnique(l, candidates)) {
      assert u in Kept(l, candidates);
    }
  }

  // ----- The budget goes by rank --------------------------------------------------------

  lemma {:induction false} UsedGrows(i: Input, s: seq<ContextCandidate>, j: nat, k: nat)
    requires j <= k <= |s|
    ensures Used(i, s[..j]) <= Used(i, s[..k])
    decreases k
  {
    if j < k {
      assert s[..k][..k - 1] == s[..k - 1];
      UsedGrows(i, s, j, k - 1);
    }
  }

  function TokenSum(l: Library, s: seq<ContextCandidate>): nat {
    if s == [] then 0 else TokenSum(l, s[..|s| - 1]) + l.tokens(s[|s| - 1])
  }

  // What is used is the sum over what is shown, and never exceeds the budget.
  lemma {:induction false} WithinBudget(i: Input, s: seq<ContextCandidate>)
    ensures Used(i, s) == TokenSum(i.library, Shown(i, s))
    ensures i.request.budget >= 0 ==> Used(i, s) <= i.request.budget
  {
    if s != [] {
      var init, last := s[..|s| - 1], s[|s| - 1];
      WithinBudget(i, init);
      assert TokenSum(i.library, Shown(i, init) + [last]) == TokenSum(i.library, Shown(i, init)) + i.library.tokens(last) by {
        assert (Shown(i, init) + [last])[..|Shown(i, init)|] == Shown(i, init);
      }
      assert Shown(i, init) + [] == Shown(i, init);
    }
  }

  // An eligible candidate is shown exactly when it fits beside the shown ones before
  // it, and one that was left out for the budget does not fit in what remains.
  lemma ShownExactlyWhenItFits(i: Input, s: seq<ContextCandidate>, k: nat)
    requires k < |s| && Refusal(i.request, s[k]).None?
    ensures Fate(i, s, k).None? <==>
      TokenSum(i.library, Shown(i, s[..k])) + i.library.tokens(s[k]) <= i.request.budget
    ensures Fate(i, s, k).Some? ==> TokenSum(i.library, Shown(i, s)) + i.library.tokens(s[k]) > i.request.budget
  {
    WithinBudget(i, s[..k]);
    WithinBudget(i, s);
    UsedGrows(i, s, k, |s|);
    assert s[..|s|] == s;
  }

  // A later candidate does not change what became of an earlier one.
  lemma SameFates(i: Input, s: seq<ContextCandidate>)
    requires s != []
    ensures forall k :: 0 <= k < |s| - 1 ==> s[k] == s[..|s| - 1][k] && Fate(i, s, k) == Fate(i, s[..|s| - 1], k)
  {
    forall k | 0 <= k < |s| - 1 ensures Fate(i, s, k) == Fate(i, s[..|s| - 1], k) {
      assert s[..k] == s[..|s| - 1][..k];
    }
  }

  lemma {:induction false} ShownIffFate(i: Input, s: seq<ContextCandidate>, c: ContextCandidate)
    ensures c in Shown(i, s) <==> exists k :: 0 <= k < |s| && s[k] == c && Fate(i, s, k).None?
  {
    if s != [] {
      var init := s[..|s| - 1];
      ShownIffFate(i, init, c);
      SameFates(i, s);
      if c in Shown(i, init) {
        var k :| 0 <= k < |init| && init[k] == c && Fate(i, init, k).None?;
        assert s[k] == c && Fate(i, s, k).None?;
      }
    }
  }

  predicate Admissible(q: Request, c: ContextCandidate) {
    match c
    case L0(e, _, _) =>
      e.occurredAt.at <= q.asOf && e.inline && e.sensitivity != Types.Secret
      && (e.sensitivity == Types.Sensitive ==> q.includeSensitive)
    case L1(m, _, _) =>
      m.lifecycle == Active && m.inline && m.sensitivity != Types.Secret
      && m.validity.validFrom <= q.asOf && (m.validity.validTo.Some? ==> q.asOf <= m.validity.validTo.value)
      && (m.sensitivity == Types.Sensitive ==> q.includeSensitive)
  }

  lemma RefusedExactly(q: Request, c: ContextCandidate)
    ensures Refusal(q, c).None? <==> Admissible(q, c)
  {
  }

  // The slice shows only admissible input candidates in the request's scopes, none
  // of them evidence that a memory among the candidates stands for.
  lemma SliceShowsOnlyAdmissible(i: Input, candidates: seq<ContextCandidate>, c: ContextCandidate)
    requires var r := Compile(i, candidates); r.Returned? && r.slice.Some? && c in r.slice.value.items
    ensures c in candidates && ScopeOf(c) in i.request.scopes && Admissible(i.request, c)
    ensures c.L0? ==> c.evidence.evidenceId !in GovernedEvidence(IdentityUnique(i.library, candidates))
  {
    var kept := Kept(i.library, candidates);
    ShownIffFate(i, kept, c);
    RefusedExactly(i.request, c);
    FirstsFacts(Ranked(i.library, candidates), {});
    SameMembers(candidates, Ranked(i.library, candidates));
  }

  // ----- The receipt tells what the slice shows -----------------------------------------

  lemma {:induction false} RecordedExactly(i: Input, s: seq<ContextCandidate>, key: string)
    ensures key in Recorded(i, s) <==> exists k :: 0 <= k < |s| && KeyOf(i.library, s[k]) == key && Fate(i, s, k).Some?
  {
    if s != [] {
      var init := s[..|s| - 1];
      RecordedExactly(i, init, key);
      SameFates(i, s);
      if key in Recorded(i, init) {
        var k :| 0 <= k < |init| && KeyOf(i.library, init[k]) == key && Fate(i, init, k).Some?;
        assert KeyOf(i.library, s[k]) == key && Fate(i, s, k).Some?;
      }
    }
  }

  // The receipt calls a decided candidate included exactly when it is shown.
  ghost predicate ReceiptHonest(i: Input, s: seq<ContextCandidate>) {
    forall k :: 0 <= k < |s| ==> (Lines(i, s)[k].included <==> Fate(i, s, k).None?)
  }

  function WithBudget(i: Input, budget: nat): Input {
    i.(request := i.request.(budget := budget))
  }

  // With a larger budget at least as much is used: either nothing changes, or more is
  // used than the smaller budget.
  lemma {:induction false} UsedMonotone(i: Input, s: seq<ContextCandidate>, less: nat, more: nat)
    requires less <= more
    ensures var a, b := Used(WithBudget(i, less), s), Used(WithBudget(i, more), s);
      a <= b && a <= less && (a == b || less < b)
  {
    if s != [] {
      UsedMonotone(i, s[..|s| - 1], less, more);
    }
  }

  // What a candidate needs under a budget: its own tokens beside those shown before.
  function Need(i: Input, s: seq<ContextCandidate>, m: nat, budget: nat): nat
    requires m < |s|
  {
    Used(WithBudget(i, budget), s[..m]) + i.library.tokens(s[m])
  }

  // Raises a budget until it covers what the candidate needs under it.
  function RaisedBudget(i: Input, s: seq<ContextCandidate>, m: nat, from: nat): nat
    requires m < |s|
    decreases EligibleTokens(i, s[..m]) + i.library.tokens(s[m]) - from
  {
    UsedAtMostEligible(WithBudget(i, from), s[..m]);
    SameEligible(i, from, s[..m]);
    if Need(i, s, m, from) <= from then from else RaisedBudget(i, s, m, Need(i, s, m, from))
  }

  // The smallest budget that shows an eligible candidate.
  function LeastBudget(i: Input, s: seq<ContextCandidate>, m: nat): nat
    requires m < |s|
  {
    RaisedBudget(i, s, m, i.library.tokens(s[m]))
  }

  function EligibleTokens(i: Input, s: seq<ContextCandidate>): nat {
    if s == [] then 0
    else if Refusal(i.request, s[|s| - 1]).None? then EligibleTokens(i, s[..|s| - 1]) + i.library.tokens(s[|s| - 1])
    else EligibleTokens(i, s[..|s| - 1])
  }

  lemma {:induction false} UsedAtMostEligible(i: Input, s: seq<ContextCandidate>)
    ensures Used(i, s) <= EligibleTokens(i, s)
  {
    if s != [] { UsedAtMostEligible(i, s[..|s| - 1]); }
  }

  lemma {:induction false} SameEligible(i: Input, budget: nat, s: seq<ContextCandidate>)
    ensures EligibleTokens(WithBudget(i, budget), s) == EligibleTokens(i, s)
  {
    if s != [] { SameEligible(i, budget, s[..|s| - 1]); }
  }

  lemma {:induction false} RaisedCovers(i: Input, s: seq<ContextCandidate>, m: nat, from: nat, budget: nat)
    requires m < |s| && from <= Need(i, s, m, from)
    ensures var r := RaisedBudget(i, s, m, from); Need(i, s, m, r) == r
    ensures from <= budget && Need(i, s, m, budget) <= budget ==> RaisedBudget(i, s, m, from) <= budget
    decreases EligibleTokens(i, s[..m]) + i.library.tokens(s[m]) - from
  {
    var need := Need(i, s, m, from);
    UsedAtMostEligible(WithBudget(i, from), s[..m]);
    SameEligible(i, from, s[..m]);
    if from < need {
      UsedMonotone(i, s[..m], from, need);
      if from <= budget { UsedMonotone(i, s[..m], from, budget); }
      RaisedCovers(i, s, m, need, budget);
    }
  }

  // It shows the candidate and leaves nothing over, and no smaller one shows it.
  lemma LeastBudgetIsLeast(i: Input, s: seq<ContextCandidate>, m: nat, budget: nat)
    requires m < |s| && Refusal(i.request, s[m]).None?
    ensures var j := WithBudget(i, LeastBudget(i, s, m));
      Fate(j, s, m).None? && Used(j, s[..m + 1]) == LeastBudget(i, s, m) >= i.library.tokens(s[m])
    ensures Fate(WithBudget(i, budget), s, m).None? ==> LeastBudget(i, s, m) <= budget
  {
    RaisedCovers(i, s, m, i.library.tokens(s[m]), budget);
    assert s[..m + 1][..m] == s[..m];
  }

  // Candidates before it that are too large for the budget are passed over, so the
  // sum of what is eligible before it can be far more than it needs.
  lemma LeastBudgetPassesOver(i: Input, large: ContextCandidate, small: ContextCandidate)
    requires Refusal(i.request, large).None? && i.library.tokens(small) < i.library.tokens(large)
    ensures LeastBudget(i, [large, small], 1) == i.library.tokens(small)
  {
    var j := WithBudget(i, i.library.tokens(small));
    assert [large, small][..1] == [large] && [large][..0] == [];
    assert Used(j, [large]) == 0;
  }

  lemma LaterOnesDoNotFit(i: Input, s: seq<ContextCandidate>, m: nat, o: nat)
    requires CostlyItems(i.library) && m < o < |s| && Used(i, s[..m + 1]) == i.request.budget
    ensures Fate(i, s, o).Some?
  {
    UsedGrows(i, s, m + 1, o);
    assert i.library.tokens(s[o]) > 0;
  }

  predicate Showable(i: Input, s: seq<ContextCandidate>, m: nat)
    requires m < |s|
  {
    Refusal(i.request, s[m]).None? && LeastBudget(i, s, m) <= MAX_BUDGET
  }

  lemma ShowableExactly(i: Input, s: seq<ContextCandidate>, m: nat)
    requires m < |s| && CostlyItems(i.library)
    ensures Showable(i, s, m) <==> exists budget: nat :: 1 <= budget <= MAX_BUDGET && Fate(WithBudget(i, budget), s, m).None?
  {
    if Refusal(i.request, s[m]).None? {
      var least := LeastBudget(i, s, m);
      LeastBudgetIsLeast(i, s, m, 0);
      assert i.library.tokens(s[m]) > 0 && Fate(WithBudget(i, least), s, m).None?;
      forall budget: nat | Fate(WithBudget(i, budget), s, m).None? ensures least <= budget {
        LeastBudgetIsLeast(i, s, m, budget);
      }
    } else {
      forall budget: nat ensures Fate(WithBudget(i, budget), s, m).Some? { }
    }
  }

  // The budget that shows one of two and not the other.
  lemma OnlyOneFits(i: Input, s: seq<ContextCandidate>, m: nat, o: nat) returns (budget: nat)
    requires CostlyItems(i.library) && m < |s| && o < |s| && m != o
    requires Showable(i, s, m) && (Showable(i, s, o) ==> m < o)
    ensures 1 <= budget <= MAX_BUDGET
    ensures Fate(WithBudget(i, budget), s, m).None? && Fate(WithBudget(i, budget), s, o).Some?
  {
    budget := LeastBudget(i, s, m);
    LeastBudgetIsLeast(i, s, m, 0);
    assert i.library.tokens(s[m]) > 0;
    if Refusal(i.request, s[o]).None? {
      if m < o {
        LaterOnesDoNotFit(WithBudget(i, budget), s, m, o);
      } else {
        LeastBudgetIsLeast(i, s, o, budget);
      }
    }
  }

  lemma EvidenceKeysApart(a: string, b: string, x: string, y: string)
    requires ':' !in a && ':' !in b && JoinIds("l0m:" + a, x) == JoinIds("l0m:" + b, y)
    ensures a == b
  {
    assert JoinIds("l0m:" + a, x)[4..] == JoinIds(a, x);
    assert JoinIds("l0m:" + b, y)[4..] == JoinIds(b, y);
    JoinedIdsWithoutColon(a, x, b, y);
  }

  // Only a memory that carries the identity of evidence can share a key with another
  // candidate that is decided.
  lemma CollidingPairsAreMixed(i: Input, s: seq<ContextCandidate>, m: nat, o: nat)
    requires SoundDigests(i.library) && OnePerIdentity(s) && m < |s| && o < |s| && m != o
    requires KeyOf(i.library, s[m]) == KeyOf(i.library, s[o])
    ensures s[m].L0? != s[o].L0?
  {
    var a, b := s[m], s[o];
    if a.L0? && b.L0? {
      EvidenceKeysApart(i.library.evidenceDigest(a.evidence.evidenceId), i.library.evidenceDigest(b.evidence.evidenceId),
                        RevisionIdOf(i.library, a), RevisionIdOf(i.library, b));
    }
  }

  lemma KeptOnePerIdentity(l: Library, candidates: seq<ContextCandidate>)
    ensures OnePerIdentity(Kept(l, candidates))
  {
    FirstsFacts(Ranked(l, candidates), {});
    var unique := IdentityUnique(l, candidates);
    FilterOnePerIdentity(Ungoverned(GovernedEvidence(unique)), unique);
  }

  lemma {:induction false} FilterOnePerIdentity(p: ContextCandidate -> bool, s: seq<ContextCandidate>)
    requires OnePerIdentity(s)
    ensures OnePerIdentity(Filter(p, s))
  {
    if s != [] {
      FilterOnePerIdentity(p, s[1..]);
      forall c | c in Filter(p, s[1..]) ensures IdentityOf(c) != IdentityOf(s[0]) {
        var k :| 0 <= k < |s[1..]| && s[1..][k] == c;
        assert s[k + 1] == c;
      }
    }
  }

  // A memory and a piece of evidence among the decided candidates have the same key,
  // and one of them is shown under some budget that a request may have.
  ghost predicate ForgedIdentity(i: Input, s: seq<ContextCandidate>) {
    exists m: nat, o: nat :: Forges(i, s, m, o)
  }

  ghost predicate Forges(i: Input, s: seq<ContextCandidate>, m: nat, o: nat) {
    m < |s| && o < |s| && s[m].L0? != s[o].L0? && KeyOf(i.library, s[m]) == KeyOf(i.library, s[o]) && Showable(i, s, m)
  }

  lemma HonestWithoutForgery(i: Input, s: seq<ContextCandidate>, budget: nat)
    requires SoundDigests(i.library) && OnePerIdentity(s) && !ForgedIdentity(i, s) && budget <= MAX_BUDGET
    ensures ReceiptHonest(WithBudget(i, budget), s)
  {
    var j := WithBudget(i, budget);
    forall k | 0 <= k < |s| ensures Lines(j, s)[k].included <==> Fate(j, s, k).None? {
      RecordedExactly(j, s, KeyOf(i.library, s[k]));
      forall o | 0 <= o < |s| && KeyOf(i.library, s[o]) == KeyOf(i.library, s[k]) && Fate(j, s, o).Some?
        ensures Fate(j, s, k).Some?
      {
        if Fate(j, s, k).None? { RefusedTwinForges(i, s, budget, k, o); }
      }
    }
  }

  lemma RefusedTwinForges(i: Input, s: seq<ContextCandidate>, budget: nat, k: nat, o: nat)
    requires SoundDigests(i.library) && OnePerIdentity(s) && budget <= MAX_BUDGET && k < |s| && o < |s|
    requires KeyOf(i.library, s[o]) == KeyOf(i.library, s[k])
    requires Fate(WithBudget(i, budget), s, o).Some? && Fate(WithBudget(i, budget), s, k).None?
    ensures ForgedIdentity(i, s)
  {
    CollidingPairsAreMixed(i, s, k, o);
    LeastBudgetIsLeast(i, s, k, budget);
    assert Forges(i, s, k, o);
  }

  lemma ForgeryMisreports(i: Input, s: seq<ContextCandidate>) returns (budget: nat)
    requires CostlyItems(i.library) && ForgedIdentity(i, s)
    ensures 1 <= budget <= MAX_BUDGET && !ReceiptHonest(WithBudget(i, budget), s)
  {
    var m, o :| Forges(i, s, m, o);
    if Showable(i, s, o) && o < m {
      budget := OnlyOneFits(i, s, o, m);
      TwinMisreports(WithBudget(i, budget), s, o, m);
    } else {
      budget := OnlyOneFits(i, s, m, o);
      TwinMisreports(WithBudget(i, budget), s, m, o);
    }
  }

  lemma TwinMisreports(i: Input, s: seq<ContextCandidate>, m: nat, o: nat)
    requires m < |s| && o < |s| && KeyOf(i.library, s[m]) == KeyOf(i.library, s[o])
    requires Fate(i, s, m).None? && Fate(i, s, o).Some?
    ensures !ReceiptHonest(i, s)
  {
    RecordedExactly(i, s, KeyOf(i.library, s[m]));
    assert !Lines(i, s)[m].included;
  }

  predicate OrdinaryLane(lane: Lane) {
    !lane.SemanticVector? && !lane.RelationGraph?
  }

  // No decided candidate and no supplied exclusion is of a lane whose receipt lines
  // need more than this compiler gives them.
  predicate OrdinaryLanes(i: Input, s: seq<ContextCandidate>) {
    (forall c :: c in s ==> OrdinaryLane(c.lane)) && (forall e :: e in i.exclusions ==> OrdinaryLane(e.lane))
  }

  lemma LinesOkExactly(i: Input, s: seq<ContextCandidate>)
    ensures LinesOk(Lines(i, s)) <==> OrdinaryLanes(i, s)
  {
    forall c | c in s ensures LineOf(i.library, Recorded(i, s))(c) in Lines(i, s) {
      MapHas(LineOf(i.library, Recorded(i, s)), s, c);
    }
    forall e | e in i.exclusions ensures SuppliedLine(e) in Lines(i, s) {
      MapHas(SuppliedLine, i.exclusions, e);
    }
  }

  // The result's receipt calls a decided candidate included exactly when the result's
  // slice holds it.
  ghost predicate HonestResult(r: Compiled, s: seq<ContextCandidate>) {
    && r.Returned? && |s| <= |r.receipt|
    && forall k :: 0 <= k < |s| ==> (r.receipt[k].included <==> r.slice.Some? && s[k] in r.slice.value.items)
  }

  lemma HonestResultExactly(i: Input, s: seq<ContextCandidate>)
    requires OnePerIdentity(s) && OrdinaryLanes(i, s)
    ensures HonestResult(CompileKept(i, s), s) <==> ReceiptHonest(i, s)
  {
    LinesOkExactly(i, s);
    assert CompileKept(i, s).receipt == Lines(i, s) && |s| <= |Lines(i, s)|;
    forall k | 0 <= k < |s| ensures s[k] in Shown(i, s) <==> Fate(i, s, k).None? {
      ShownAtItsPlace(i, s, k);
    }
  }

  lemma ShownAtItsPlace(i: Input, s: seq<ContextCandidate>, k: nat)
    requires OnePerIdentity(s) && k < |s|
    ensures s[k] in Shown(i, s) <==> Fate(i, s, k).None?
  {
    ShownIffFate(i, s, s[k]);
    if s[k] in Shown(i, s) {
      var j :| 0 <= j < |s| && s[j] == s[k] && Fate(i, s, j).None?;
      assert j == k;
    }
  }

  // The receipt tells what the slice shows, for every budget that a request may have,
  // exactly when no memory has taken the identity of evidence while one of the two can
  // be shown.
  lemma ReceiptHonestExactly(i: Input, candidates: seq<ContextCandidate>)
    requires SoundDigests(i.library) && CostlyItems(i.library)
    requires RequestOk(i.request, candidates) && OrdinaryLanes(i, Kept(i.library, candidates))
    ensures var s := Kept(i.library, candidates);
      (forall budget: nat :: 1 <= budget <= MAX_BUDGET ==> HonestResult(Compile(WithBudget(i, budget), candidates), s))
        <==> !ForgedIdentity(i, s)
  {
    var s := Kept(i.library, candidates);
    KeptOnePerIdentity(i.library, candidates);
    forall budget: nat | 1 <= budget <= MAX_BUDGET
      ensures HonestResult(Compile(WithBudget(i, budget), candidates), s) <==> ReceiptHonest(WithBudget(i, budget), s)
    {
      HonestResultExactly(WithBudget(i, budget), s);
    }
    if ForgedIdentity(i, s) {
      var budget := ForgeryMisreports(i, s);
    } else {
      forall budget: nat | 1 <= budget <= MAX_BUDGET ensures ReceiptHonest(WithBudget(i, budget), s) {
        HonestWithoutForgery(i, s, budget);
      }
    }
  }

  // ----- Counts and status ----------------------------------------------------------------

  function LineKey(d: Line): string { JoinIds(d.memoryId, d.revisionId) }

  predicate LeftOut(d: Line) { !d.included }

  function KeysOfLines(s: seq<Line>): set<string> {
    set d | d in s :: LineKey(d)
  }

  lemma {:induction false} SuppliedKeys(m: map<string, Reason>, exclusions: seq<ContextExclusion>)
    ensures Supply(m, exclusions).Keys == m.Keys + KeysOfLines(Map(SuppliedLine, exclusions))
  {
    if exclusions != [] {
      var init, last := exclusions[..|exclusions| - 1], exclusions[|exclusions| - 1];
      SuppliedKeys(m, init);
      assert exclusions == init + [last];
      MapSnoc(SuppliedLine, init, last);
      var a := Map(SuppliedLine, init);
      assert KeysOfLines(a + [SuppliedLine(last)]) == KeysOfLines(a) + {LineKey(SuppliedLine(last))};
    }
  }

  lemma OwnLeftOutKeys(i: Input, s: seq<ContextCandidate>)
    ensures KeysOfLines(Filter(LeftOut, Map(LineOf(i.library, Recorded(i, s)), s))) == Recorded(i, s).Keys
  {
    var own := Map(LineOf(i.library, Recorded(i, s)), s);
    forall key | key in Recorded(i, s) ensures key in KeysOfLines(Filter(LeftOut, own)) {
      RecordedExactly(i, s, key);
      var k :| 0 <= k < |s| && KeyOf(i.library, s[k]) == key && Fate(i, s, k).Some?;
      assert own[k] in own && LeftOut(own[k]) && LineKey(own[k]) == key;
    }
    forall d | d in Filter(LeftOut, own) ensures LineKey(d) in Recorded(i, s) {
      var c := MappedFrom(LineOf(i.library, Recorded(i, s)), s, d);
    }
  }

  lemma KeysOfBoth(a: seq<Line>, b: seq<Line>)
    ensures KeysOfLines(a + b) == KeysOfLines(a) + KeysOfLines(b)
  {
    assert forall d :: d in a + b <==> d in a || d in b;
  }

  lemma LeftOutKeys(i: Input, s: seq<ContextCandidate>)
    ensures KeysOfLines(Filter(LeftOut, Lines(i, s))) == Supply(Recorded(i, s), i.exclusions).Keys
  {
    var own, supplied := Map(LineOf(i.library, Recorded(i, s)), s), Map(SuppliedLine, i.exclusions);
    SuppliedKeys(Recorded(i, s), i.exclusions);
    OwnLeftOutKeys(i, s);
    FilterAppend(LeftOut, own, supplied);
    FilterAll(LeftOut, supplied);
    KeysOfBoth(Filter(LeftOut, own), supplied);
  }

  lemma DistinctSnoc(s: seq<Line>, d: Line)
    ensures Distinct(Map(LineKey, s + [d])) <==> Distinct(Map(LineKey, s)) && LineKey(d) !in KeysOfLines(s)
  {
    MapSnoc(LineKey, s, d);
    var keys := Map(LineKey, s);
    assert forall k :: 0 <= k < |s| ==> keys[k] == (keys + [LineKey(d)])[k];
    if LineKey(d) in KeysOfLines(s) {
      var e :| e in s && LineKey(e) == LineKey(d);
      var k :| 0 <= k < |s| && s[k] == e;
      assert (keys + [LineKey(d)])[k] == (keys + [LineKey(d)])[|s|];
    } else {
      assert forall k :: 0 <= k < |s| ==> s[k] in s && keys[k] == LineKey(s[k]);
    }
  }

  lemma {:induction false} DistinctExactly(s: seq<Line>)
    ensures |KeysOfLines(s)| <= |s|
    ensures |KeysOfLines(s)| == |s| <==> Distinct(Map(LineKey, s))
  {
    if s != [] {
      var init, last := s[..|s| - 1], s[|s| - 1];
      DistinctExactly(init);
      assert s == init + [last];
      DistinctSnoc(init, last);
      KeysOfBoth(init, [last]);
      assert KeysOfLines([last]) == {LineKey(last)};
    }
  }

  lemma DistinctAppend(a: seq<string>, b: seq<string>)
    ensures Distinct(a + b) <==> Distinct(a) && Distinct(b) && forall x :: x in a ==> x !in b
  {
    var ab := a + b;
    if Distinct(ab) {
      forall j, k | 0 <= j < k < |a| ensures a[j] != a[k] { assert ab[j] != ab[k]; }
      forall j, k | 0 <= j < k < |b| ensures b[j] != b[k] { assert ab[|a| + j] != ab[|a| + k]; }
      forall j, k | 0 <= j < |a| && 0 <= k < |b| ensures a[j] != b[k] { assert ab[j] != ab[|a| + k]; }
    }
    if Distinct(a) && Distinct(b) && forall x :: x in a ==> x !in b {
      forall j, k | 0 <= j < k < |ab| ensures ab[j] != ab[k] {
        if j < |a| <= k { assert a[j] in a && b[k - |a|] in b; }
      }
    }
  }

  ghost predicate LeftOutApart(s: seq<Line>) {
    forall j, k :: 0 <= j < k < |s| && LeftOut(s[j]) && LeftOut(s[k]) ==> LineKey(s[j]) != LineKey(s[k])
  }

  lemma ApartSnoc(s: seq<Line>, d: Line)
    ensures LeftOutApart(s + [d]) <==>
      LeftOutApart(s) && (LeftOut(d) ==> LineKey(d) !in KeysOfLines(Filter(LeftOut, s)))
  {
    var t := s + [d];
    assert forall j :: 0 <= j < |s| ==> t[j] == s[j];
    assert t[|s|] == d;
    if LeftOutApart(t) && LeftOut(d) {
      forall e | e in Filter(LeftOut, s) ensures LineKey(e) != LineKey(d) {
        var j :| 0 <= j < |s| && s[j] == e;
        assert LineKey(t[j]) != LineKey(t[|s|]);
      }
    }
    if LeftOutApart(s) && (LeftOut(d) ==> LineKey(d) !in KeysOfLines(Filter(LeftOut, s))) {
      forall j, k | 0 <= j < k < |t| && LeftOut(t[j]) && LeftOut(t[k]) ensures LineKey(t[j]) != LineKey(t[k]) {
        assert s[j] in Filter(LeftOut, s);
      }
    }
  }

  ghost predicate KeysTellApart(s: seq<Line>) {
    Distinct(Map(LineKey, Filter(LeftOut, s))) <==> LeftOutApart(s)
  }

  lemma LeftOutDistinctSnoc(s: seq<Line>, d: Line)
    requires KeysTellApart(s)
    ensures KeysTellApart(s + [d])
  {
    FilterSnoc(LeftOut, s, d);
    ApartSnoc(s, d);
    if LeftOut(d) { DistinctSnoc(Filter(LeftOut, s), d); } else { assert Filter(LeftOut, s + [d]) == Filter(LeftOut, s); }
  }

  lemma NothingLeftOut()
    ensures KeysTellApart([])
  {
    assert Map(LineKey, Filter(LeftOut, [])) == [];
  }

  lemma {:induction false} LeftOutDistinct(s: seq<Line>)
    ensures KeysTellApart(s)
  {
    if s == [] {
      NothingLeftOut();
    } else {
      var init, last := s[..|s| - 1], s[|s| - 1];
      assert init + [last] == s;
      LeftOutDistinct(init);
      LeftOutDistinctSnoc(init, last);
    }
  }

  function ExclusionKey(e: ContextExclusion): string { JoinIds(e.memoryId, e.revisionId) }

  // Supplied exclusions have different keys, none of them is the key of a refused
  // candidate, and no refused candidate shares its key with another decided one.
  ghost predicate ExcludedApart(i: Input, s: seq<ContextCandidate>) {
    && Distinct(Map(ExclusionKey, i.exclusions))
    && (forall k, e :: 0 <= k < |s| && e in i.exclusions && Fate(i, s, k).Some? ==> KeyOf(i.library, s[k]) != ExclusionKey(e))
    && (forall j, k :: 0 <= j < |s| && 0 <= k < |s| && j != k && Fate(i, s, j).Some? ==>
          KeyOf(i.library, s[j]) != KeyOf(i.library, s[k]))
  }

  lemma OwnLinesApart(i: Input, s: seq<ContextCandidate>)
    ensures LeftOutApart(Map(LineOf(i.library, Recorded(i, s)), s)) <==>
      forall j, k :: 0 <= j < |s| && 0 <= k < |s| && j != k && Fate(i, s, j).Some? ==> KeyOf(i.library, s[j]) != KeyOf(i.library, s[k])
  {
    var own := Map(LineOf(i.library, Recorded(i, s)), s);
    forall k | 0 <= k < |s|
      ensures LineKey(own[k]) == KeyOf(i.library, s[k])
      ensures LeftOut(own[k]) <==> exists j :: 0 <= j < |s| && KeyOf(i.library, s[j]) == KeyOf(i.library, s[k]) && Fate(i, s, j).Some?
    {
      RecordedExactly(i, s, KeyOf(i.library, s[k]));
    }
    if LeftOutApart(own) {
      forall j, k | 0 <= j < |s| && 0 <= k < |s| && j != k && Fate(i, s, j).Some?
        ensures KeyOf(i.library, s[j]) != KeyOf(i.library, s[k])
      {
        assert LeftOut(own[j]);
      }
    }
  }

  lemma KeysDisjoint(i: Input, s: seq<ContextCandidate>)
    ensures (forall x :: x in Map(LineKey, Filter(LeftOut, Map(LineOf(i.library, Recorded(i, s)), s))) ==> x !in Map(ExclusionKey, i.exclusions))
      <==> forall k, e :: 0 <= k < |s| && e in i.exclusions && Fate(i, s, k).Some? ==> KeyOf(i.library, s[k]) != ExclusionKey(e)
  {
    OwnKeys(i, s);
    forall e | e in i.exclusions ensures ExclusionKey(e) in Map(ExclusionKey, i.exclusions) {
      MapHas(ExclusionKey, i.exclusions, e);
    }
    forall x | x in Map(ExclusionKey, i.exclusions) ensures exists e :: e in i.exclusions && ExclusionKey(e) == x {
      var e := MappedFrom(ExclusionKey, i.exclusions, x);
    }
  }

  lemma KeysOfLeftOut(i: Input, s: seq<ContextCandidate>)
    ensures Map(LineKey, Filter(LeftOut, Lines(i, s))) ==
      Map(LineKey, Filter(LeftOut, Map(LineOf(i.library, Recorded(i, s)), s))) + Map(ExclusionKey, i.exclusions)
  {
    var own, supplied := Map(LineOf(i.library, Recorded(i, s)), s), Map(SuppliedLine, i.exclusions);
    FilterAppend(LeftOut, own, supplied);
    FilterAll(LeftOut, supplied);
    MapAppend(LineKey, Filter(LeftOut, own), supplied);
    assert Map(LineKey, supplied) == Map(ExclusionKey, i.exclusions);
  }

  lemma LinesApart(i: Input, s: seq<ContextCandidate>)
    ensures Distinct(Map(LineKey, Filter(LeftOut, Lines(i, s)))) <==> ExcludedApart(i, s)
  {
    var own := Map(LineOf(i.library, Recorded(i, s)), s);
    KeysOfLeftOut(i, s);
    DistinctAppend(Map(LineKey, Filter(LeftOut, own)), Map(ExclusionKey, i.exclusions));
    LeftOutDistinct(own);
    OwnLinesApart(i, s);
    KeysDisjoint(i, s);
  }

  lemma OwnKeys(i: Input, s: seq<ContextCandidate>)
    ensures forall x :: x in Map(LineKey, Filter(LeftOut, Map(LineOf(i.library, Recorded(i, s)), s))) <==>
      exists k :: 0 <= k < |s| && KeyOf(i.library, s[k]) == x && Fate(i, s, k).Some?
  {
    var out := Filter(LeftOut, Map(LineOf(i.library, Recorded(i, s)), s));
    OwnLeftOutKeys(i, s);
    forall x ensures x in Map(LineKey, out) <==> x in KeysOfLines(out) {
      if x in KeysOfLines(out) {
        var d :| d in out && LineKey(d) == x;
        MapHas(LineKey, out, d);
      }
    }
    forall x ensures x in Recorded(i, s) <==> exists k :: 0 <= k < |s| && KeyOf(i.library, s[k]) == x && Fate(i, s, k).Some? {
      RecordedExactly(i, s, x);
    }
  }

  // excluded_count is the number of receipt lines that are left out exactly when no
  // two exclusions, decided or supplied, have one key; otherwise it is smaller.
  lemma ExcludedCountExactly(i: Input, candidates: seq<ContextCandidate>)
    requires Compile(i, candidates).Returned?
    ensures var r := Compile(i, candidates); var out := Filter(LeftOut, r.receipt);
      r.excludedCount <= |out| && (r.excludedCount == |out| <==> ExcludedApart(i, Kept(i.library, candidates)))
  {
    LeftOutKeys(i, Kept(i.library, candidates));
    DistinctExactly(Filter(LeftOut, Compile(i, candidates).receipt));
    LinesApart(i, Kept(i.library, candidates));
  }

  // Nothing refuses the candidate, its item costs one token, and no candidate before it
  // could take that token.
  predicate AlwaysShown(i: Input, s: seq<ContextCandidate>, k: nat)
    requires k < |s|
  {
    && Refusal(i.request, s[k]).None? && i.library.tokens(s[k]) == 1
    && forall j :: 0 <= j < k && Refusal(i.request, s[j]).None? ==> i.library.tokens(s[j]) > MAX_BUDGET
  }

  lemma {:induction false} NothingFits(i: Input, s: seq<ContextCandidate>, budget: nat)
    requires forall j :: 0 <= j < |s| && Refusal(i.request, s[j]).None? ==> i.library.tokens(s[j]) > budget
    ensures Used(WithBudget(i, budget), s) == 0
  {
    if s != [] { NothingFits(i, s[..|s| - 1], budget); }
  }

  // A budget of what the cheapest one costs is used up by the first that costs as much.
  lemma {:induction false} CheapestFillsBudget(i: Input, s: seq<ContextCandidate>, m: nat, budget: nat)
    requires m < |s| && Refusal(i.request, s[m]).None? && i.library.tokens(s[m]) == budget && budget > 0
    requires forall j :: 0 <= j < |s| && Refusal(i.request, s[j]).None? ==> i.library.tokens(s[j]) >= budget
    ensures Used(WithBudget(i, budget), s) == budget
  {
    var init := s[..|s| - 1];
    WithinBudget(WithBudget(i, budget), init);
    if m < |init| {
      CheapestFillsBudget(i, init, m, budget);
    } else {
      AllOrNothing(i, init, budget);
    }
  }

  lemma {:induction false} AllOrNothing(i: Input, s: seq<ContextCandidate>, budget: nat)
    requires forall j :: 0 <= j < |s| && Refusal(i.request, s[j]).None? ==> i.library.tokens(s[j]) >= budget
    ensures Used(WithBudget(i, budget), s) == 0 || Used(WithBudget(i, budget), s) == budget
  {
    if s != [] {
      AllOrNothing(i, s[..|s| - 1], budget);
      WithinBudget(WithBudget(i, budget), s);
    }
  }

  lemma {:induction false} Cheapest(i: Input, s: seq<ContextCandidate>, j: nat) returns (m: nat)
    requires j < |s| && Refusal(i.request, s[j]).None?
    ensures m < |s| && Refusal(i.request, s[m]).None? && i.library.tokens(s[m]) <= i.library.tokens(s[j])
    ensures forall x :: 0 <= x < |s| && Refusal(i.request, s[x]).None? ==> i.library.tokens(s[x]) >= i.library.tokens(s[m])
    decreases i.library.tokens(s[j])
  {
    m := j;
    if x :| 0 <= x < |s| && Refusal(i.request, s[x]).None? && i.library.tokens(s[x]) < i.library.tokens(s[j]) {
      m := Cheapest(i, s, x);
    }
  }

  // These are exactly the candidates that every budget shows.
  lemma AlwaysShownExactly(i: Input, s: seq<ContextCandidate>, k: nat)
    requires k < |s| && CostlyItems(i.library)
    ensures AlwaysShown(i, s, k) <==> forall budget: nat :: 1 <= budget <= MAX_BUDGET ==> Fate(WithBudget(i, budget), s, k).None?
  {
    if AlwaysShown(i, s, k) {
      forall budget: nat | 1 <= budget <= MAX_BUDGET ensures Fate(WithBudget(i, budget), s, k).None? {
        NothingFits(i, s[..k], budget);
      }
    } else {
      var budget := RefusingBudget(i, s, k);
    }
  }

  lemma RefusingBudget(i: Input, s: seq<ContextCandidate>, k: nat) returns (budget: nat)
    requires k < |s| && CostlyItems(i.library) && !AlwaysShown(i, s, k)
    ensures 1 <= budget <= MAX_BUDGET && Fate(WithBudget(i, budget), s, k).Some?
  {
    budget := 1;
    assert i.library.tokens(s[k]) > 0;
    if Refusal(i.request, s[k]).None? && i.library.tokens(s[k]) == 1 {
      var j :| 0 <= j < k && Refusal(i.request, s[j]).None? && i.library.tokens(s[j]) <= MAX_BUDGET;
      assert s[..k][j] == s[j];
      var m := Cheapest(i, s[..k], j);
      budget := i.library.tokens(s[..k][m]);
      CheapestFillsBudget(i, s[..k], m, budget);
    }
  }

  // Different keys for the supplied exclusions and for the decided candidates, and an
  // exclusion has the key of a decided candidate only if every budget shows that one.
  ghost predicate KeysApart(i: Input, s: seq<ContextCandidate>) {
    && Distinct(Map(ExclusionKey, i.exclusions))
    && (forall j, k :: 0 <= j < k < |s| ==> KeyOf(i.library, s[j]) != KeyOf(i.library, s[k]))
    && (forall k, e :: 0 <= k < |s| && e in i.exclusions && KeyOf(i.library, s[k]) == ExclusionKey(e) ==> AlwaysShown(i, s, k))
  }

  lemma ApartForEveryBudget(i: Input, s: seq<ContextCandidate>)
    requires CostlyItems(i.library)
    ensures (forall budget: nat :: 1 <= budget <= MAX_BUDGET ==> ExcludedApart(WithBudget(i, budget), s)) <==> KeysApart(i, s)
  {
    if KeysApart(i, s) {
      forall budget: nat | 1 <= budget <= MAX_BUDGET ensures ExcludedApart(WithBudget(i, budget), s) {
        KeysApartSuffices(i, s, budget);
      }
    } else {
      var budget := KeysTogether(i, s);
    }
  }

  lemma KeysApartSuffices(i: Input, s: seq<ContextCandidate>, budget: nat)
    requires CostlyItems(i.library) && KeysApart(i, s) && 1 <= budget <= MAX_BUDGET
    ensures ExcludedApart(WithBudget(i, budget), s)
  {
    forall k, e | 0 <= k < |s| && e in i.exclusions && Fate(WithBudget(i, budget), s, k).Some?
      ensures KeyOf(i.library, s[k]) != ExclusionKey(e)
    {
      AlwaysShownExactly(i, s, k);
    }
  }

  lemma KeysTogether(i: Input, s: seq<ContextCandidate>) returns (budget: nat)
    requires CostlyItems(i.library) && !KeysApart(i, s)
    ensures 1 <= budget <= MAX_BUDGET && !ExcludedApart(WithBudget(i, budget), s)
  {
    if j, k :| 0 <= j < k < |s| && KeyOf(i.library, s[j]) == KeyOf(i.library, s[k]) {
      // At most one of two is always shown: the first would take the token.
      var x := if AlwaysShown(i, s, j) then k else j;
      budget := RefusingBudget(i, s, x);
    } else if k, e :| 0 <= k < |s| && e in i.exclusions && KeyOf(i.library, s[k]) == ExclusionKey(e) && !AlwaysShown(i, s, k) {
      budget := RefusingBudget(i, s, k);
    } else {
      budget := 1;
    }
  }

  // For every budget that a request may have excluded_count is the number of excluded
  // lines exactly when the keys are apart.
  lemma ExcludedCountForEveryBudget(i: Input, candidates: seq<ContextCandidate>)
    requires CostlyItems(i.library) && RequestOk(i.request, candidates) && OrdinaryLanes(i, Kept(i.library, candidates))
    ensures (forall budget: nat :: 1 <= budget <= MAX_BUDGET ==> CountsLines(Compile(WithBudget(i, budget), candidates)))
      <==> KeysApart(i, Kept(i.library, candidates))
  {
    var s := Kept(i.library, candidates);
    ApartForEveryBudget(i, s);
    forall budget: nat | 1 <= budget <= MAX_BUDGET
      ensures CountsLines(Compile(WithBudget(i, budget), candidates)) <==> ExcludedApart(WithBudget(i, budget), s)
    {
      LinesOkExactly(WithBudget(i, budget), s);
      ExcludedCountExactly(WithBudget(i, budget), candidates);
    }
  }

  predicate CountsLines(r: Compiled) {
    r.Returned? && r.excludedCount == |Filter(LeftOut, r.receipt)|
  }

  // One exclusion supplied twice makes two lines and is counted once.
  lemma RepeatedExclusionCountsOnce(i: Input, e: ContextExclusion)
    requires RequestOk(i.request, []) && i.exclusions == [e, e] && e.lane.OtherLane?
    ensures var r := Compile(i, []); r.Returned? && |r.receipt| == 2 && |Filter(LeftOut, r.receipt)| == 2 && r.excludedCount == 1
  {
    assert Kept(i.library, []) == [];
    LinesOkExactly(i, []);
    assert Lines(i, []) == [SuppliedLine(e), SuppliedLine(e)];
    FilterAll(LeftOut, Lines(i, []));
    LeftOutKeys(i, []);
    assert KeysOfLines(Lines(i, [])) == {ExclusionKey(e)};
  }

  // The status read off slice and receipt alone.
  lemma StatusMeaning(i: Input, candidates: seq<ContextCandidate>)
    requires Compile(i, candidates).Returned?
    ensures var r := Compile(i, candidates);
      && (r.status == DEGRADED <==> i.degraded)
      && (r.status == OK <==> !i.degraded && r.slice.Some?)
      && (r.status == NO_MATCH <==> !i.degraded && r.receipt == [])
      && (r.slice.Some? ==> r.receipt != [] && 0 < |r.slice.value.items|)
  {
    var s := Kept(i.library, candidates);
    assert |Lines(i, s)| == |s| + |i.exclusions|;
  }

  // ----- The order of the candidates does not matter ----------------------------------------

  // Slice, receipt, counts and status are the same for every arrangement of
  // candidates that the order tells apart.
  lemma CompileForgetsOrder(i: Input, a: seq<ContextCandidate>, b: seq<ContextCandidate>)
    requires multiset(a) == multiset(b) && Separates(CandidateOrder(i.library), a)
    ensures Compile(i, a) == Compile(i, b)
  {
    SortForgetsOrder(CandidateOrder(i.library), a, b);
    SameMembers(a, b);
  }

  // ----- Two surprises ------------------------------------------------------------------------

  // A memory hides the evidence it cites even when it is itself refused: with the
  // revoked memory nothing is shown, without it the evidence is.
  lemma RevokedMemoryHidesEvidence(i: Input, c: ContextCandidate, d: ContextCandidate)
    requires c.L0? && d.L1? && c.rank < d.rank && c.lane.OtherLane? && d.lane.OtherLane?
    requires d.memory.evidenceIds == [c.evidence.evidenceId] && d.memory.lifecycle == Revoked
    requires i.exclusions == [] && !i.degraded && RequestOk(i.request, [c, d])
    requires Admissible(i.request, c) && i.library.tokens(c) <= i.request.budget
    ensures Compile(i, [c]).Returned? && Compile(i, [c]).slice == Some(Slice([c], i.library.tokens(c)))
    ensures Compile(i, [c, d]).Returned? && Compile(i, [c, d]).slice == None
    ensures |Compile(i, [c, d]).receipt| == 1
  {
    KeptPair(i.library, c, d);
    assert c in [c, d];
    assert RequestOk(i.request, [c]);
    CompiledAlone(i, c);
    CompiledAlone(i, d);
  }

  lemma CompiledAlone(i: Input, c: ContextCandidate)
    requires i.exclusions == [] && c.lane.OtherLane? && i.request.budget >= 0
    ensures CompileKept(i, [c]).Returned? && |CompileKept(i, [c]).receipt| == 1
    ensures CompileKept(i, [c]).receipt[0].memoryId == MemoryIdOf(i.library, c)
    ensures Refusal(i.request, c).None? && i.library.tokens(c) <= i.request.budget ==>
      CompileKept(i, [c]).slice == Some(Slice([c], i.library.tokens(c))) && CompileKept(i, [c]).excludedCount == 0
    ensures Refusal(i.request, c).Some? ==> CompileKept(i, [c]).slice == None
  {
    SingleFate(i, c);
    SingleLine(i, c);
  }

  lemma SingleLine(i: Input, c: ContextCandidate)
    requires i.exclusions == [] && c.lane.OtherLane?
    ensures |Lines(i, [c])| == 1 && LinesOk(Lines(i, [c]))
  {
    assert Lines(i, [c])[0].lane == c.lane;
  }

  lemma KeptPair(l: Library, c: ContextCandidate, d: ContextCandidate)
    requires c.L0? && d.L1? && c.rank < d.rank && d.memory.evidenceIds == [c.evidence.evidenceId]
    ensures Kept(l, [c]) == [c] && Kept(l, [c, d]) == [d]
  {
    RankedPair(l, c, d);
    assert IdentityOf(c)[0] != IdentityOf(d)[0];
    FirstsOfPair(c, d);
    assert d in [c, d] && c.evidence.evidenceId in d.memory.evidenceIds;
    var ids := GovernedEvidence([c, d]);
    assert c.evidence.evidenceId in ids;
    assert [c, d][1..] == [d] && [d][1..] == [];
    assert Filter(Ungoverned(ids), [d]) == [d];
    assert GovernedEvidence([c]) == {};
    assert [c][1..] == [];
    assert Filter(Ungoverned({}), [c]) == [c] + Filter(Ungoverned({}), []);
  }

  lemma FirstsOfPair(c: ContextCandidate, d: ContextCandidate)
    requires IdentityOf(c) != IdentityOf(d)
    ensures FirstOfEach([c], {}) == [c] && FirstOfEach([c, d], {}) == [c, d]
  {
    assert [c][1..] == [] && [c, d][1..] == [d] && [d][1..] == [];
    assert FirstOfEach([d], {} + {IdentityOf(c)}) == [d];
  }

  lemma RankedPair(l: Library, c: ContextCandidate, d: ContextCandidate)
    requires c.rank < d.rank
    ensures Ranked(l, [c, d]) == [c, d] && Ranked(l, [c]) == [c]
  {
    SortFixed(CandidateOrder(l), [c, d]);
    SortFixed(CandidateOrder(l), [c]);
  }

  lemma SingleFate(i: Input, c: ContextCandidate)
    ensures Fate(i, [c], 0).None? <==> Refusal(i.request, c).None? && i.library.tokens(c) <= i.request.budget
    ensures Fate(i, [c], 0).None? ==> Used(i, [c]) == i.library.tokens(c)
    ensures Shown(i, [c]) == if Fate(i, [c], 0).None? then [c] else []
    ensures Recorded(i, [c]) == if Fate(i, [c], 0).None? then map[] else map[KeyOf(i.library, c) := Fate(i, [c], 0).value]
  {
    assert [c][..0] == [];
  }

  // A revoked memory that has taken the identity of a piece of evidence: the slice
  // shows the evidence, and the receipt calls it excluded.
  lemma ForgedMemoryMisreports(i: Input, c: ContextCandidate, d: ContextCandidate)
    requires c.L0? && d.L1? && c.rank < d.rank && c.lane.OtherLane? && d.lane.OtherLane? && i.exclusions == []
    requires d.memory.memoryId == MemoryIdOf(i.library, c) && d.memory.revisionId == RevisionIdOf(i.library, c)
    requires c.evidence.evidenceId !in d.memory.evidenceIds && d.memory.lifecycle == Revoked
    requires RequestOk(i.request, [c, d]) && Admissible(i.request, c) && i.library.tokens(c) <= i.request.budget
    ensures var r := Compile(i, [c, d]);
      && r.Returned? && r.slice == Some(Slice([c], i.library.tokens(c)))
      && |r.receipt| == 2 && r.receipt[0].memoryId == MemoryIdOf(i.library, c)
      && !r.receipt[0].included && r.receipt[0].reasons == [REVOKED]
  {
    RankedPair(i.library, c, d);
    assert IdentityOf(c)[0] != IdentityOf(d)[0];
    FirstsOfPair(c, d);
    FilterAll(Ungoverned(GovernedEvidence([c, d])), [c, d]);
    SecondRefused(i, c, d);
    PairLines(i, c, d);
  }

  lemma SecondRefused(i: Input, c: ContextCandidate, d: ContextCandidate)
    requires Refusal(i.request, d).Some?
    ensures Shown(i, [c, d]) == Shown(i, [c]) && Used(i, [c, d]) == Used(i, [c])
    ensures Recorded(i, [c, d]) == Recorded(i, [c])[KeyOf(i.library, d) := Refusal(i.request, d).value]
    ensures Fate(i, [c], 0).None? <==> Refusal(i.request, c).None? && i.library.tokens(c) <= i.request.budget
    ensures Fate(i, [c], 0).None? ==> Shown(i, [c]) == [c] && Used(i, [c]) == i.library.tokens(c) && Recorded(i, [c]) == map[]
  {
    assert [c, d][..1] == [c];
    SingleFate(i, c);
  }

  lemma PairLines(i: Input, c: ContextCandidate, d: ContextCandidate)
    requires i.exclusions == [] && c.lane.OtherLane? && d.lane.OtherLane?
    ensures LinesOk(Lines(i, [c, d])) && |Lines(i, [c, d])| == 2
    ensures Lines(i, [c, d])[0] == LineOf(i.library, Recorded(i, [c, d]))(c)
  {
    LinesOkExactly(i, [c, d]);
  }

  // Two different memories whose joined identifiers are the same: only the better
  // ranked one is decided, and the other leaves no line in the receipt although it
  // would be shown on its own.
  lemma AmbiguousMemoryVanishes(i: Input, c: ContextCandidate, d: ContextCandidate)
    requires c.L1? && d.L1? && c.rank < d.rank && c.lane.OtherLane? && d.lane.OtherLane? && i.exclusions == []
    requires Regrouped(c.memory.memoryId, c.memory.revisionId, d.memory.memoryId, d.memory.revisionId)
    requires RequestOk(i.request, [c, d]) && Admissible(i.request, c) && Admissible(i.request, d)
    requires i.library.tokens(c) + i.library.tokens(d) <= i.request.budget
    ensures |c.memory.memoryId| < |d.memory.memoryId|
    ensures var r := Compile(i, [c, d]);
      r.Returned? && r.slice == Some(Slice([c], i.library.tokens(c))) && r.excludedCount == 0
      && |r.receipt| == 1 && r.receipt[0].memoryId == c.memory.memoryId
    ensures var r := Compile(i, [d]); r.Returned? && r.slice == Some(Slice([d], i.library.tokens(d)))
  {
    RegroupedJoin(c.memory.memoryId, c.memory.revisionId, d.memory.memoryId, d.memory.revisionId);
    assert c in [c, d] && d in [c, d];
    assert RequestOk(i.request, [d]);
    KeptTwins(i.library, c, d);
    CompiledAlone(i, c);
    CompiledAlone(i, d);
    RefusedExactly(i.request, c);
    RefusedExactly(i.request, d);
  }

  lemma KeptTwins(l: Library, c: ContextCandidate, d: ContextCandidate)
    requires c.L1? && d.L1? && c.rank < d.rank && IdentityOf(c) == IdentityOf(d)
    ensures Kept(l, [c, d]) == [c] && Kept(l, [d]) == [d]
  {
    RankedPair(l, c, d);
    SortFixed(CandidateOrder(l), [d]);
    assert [c][1..] == [] && [c, d][1..] == [d] && [d][1..] == [];
    assert FirstOfEach([d], {} + {IdentityOf(c)}) == [];
    FilterAll(Ungoverned(GovernedEvidence([c])), [c]);
    FilterAll(Ungoverned(GovernedEvidence([d])), [d]);
  }
}
