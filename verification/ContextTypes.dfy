// Candidates of the layered context compiler. Identifiers stand for their place
// in the order of `localeCompare`, scopes for their scope keys, times for the
// milliseconds that `Date.parse` gives.
module ContextTypes {

  datatype Option<+T> = None | Some(value: T)

  type Id = nat

  datatype Lane = RecentL1 | Topic | ScenarioProcedure | Core | RelationSqlite | RelationGraph | SemanticVector

  // The position of a lane in the schema's enumeration.
  function LaneIndex(l: Lane): nat {
    match l
    case RecentL1 => 0
    case Topic => 1
    case ScenarioProcedure => 2
    case Core => 3
    case RelationSqlite => 4
    case RelationGraph => 5
    case SemanticVector => 6
  }

  // Its position among the lane names: core, recent_l1, relation_graph,
  // relation_sqlite, scenario_procedure, semantic_vector, topic.
  function LaneName(l: Lane): nat {
    match l
    case Core => 0
    case RecentL1 => 1
    case RelationGraph => 2
    case RelationSqlite => 3
    case ScenarioProcedure => 4
    case SemanticVector => 5
    case Topic => 6
  }

  datatype Sensitivity = Ordinary | Sensitive | Secret

  datatype Validity = Validity(validFrom: int, validTo: Option<int>)

  datatype Transform = Transform(name: Id, version: Id)

  datatype Frontier = Frontier(ledgerEpoch: Id, tombstoneEpoch: Id, projectionEpoch: Id, sourceHash: Id, projectionHash: Id)

  datatype ScopeFrontier = ScopeFrontier(scope: Id, projectionEpoch: Id, sourceHash: Id, projectionHash: Id, transforms: seq<Transform>)

  datatype ContextFrontier =
    | Single(frontier: Frontier, transforms: seq<Transform>)
    | Scoped(ledgerEpoch: Id, tombstoneEpoch: Id, scopes: seq<ScopeFrontier>)

  datatype Payload =
    | TopicPayload | ScenarioPayload(preconditions: nat) | ProcedurePayload
    | CorePayload(constraints: nat) | RelationPayload

  datatype Abstraction = L2Topic | L2Scenario | L2Relation | L3Core

  // `inline` says that the content is stored inline; `body` is everything else that
  // is carried along unchanged (content, authority, evidence, recording time).
  datatype Memory = Memory(
    memoryId: Id, revisionId: Id, scope: Id, active: bool, validity: Validity,
    sensitivity: Sensitivity, inline: bool, reasons: seq<Id>, body: Id)

  datatype Projection = Projection(
    projectionId: Id, revisionId: Id, hasPrincipal: bool, scope: Id, active: bool, validity: Validity,
    sensitivity: Sensitivity, inline: bool, payload: Option<Payload>, abstraction: Abstraction,
    frontier: Frontier, transform: Transform, sources: seq<Id>, body: Id)

  datatype Candidate =
    | MemoryCandidate(lane: Lane, scope: Id, rank: int, revalidated: bool, memory: Memory, hasVector: bool)
    | ProjectionCandidate(lane: Lane, scope: Id, rank: int, revalidated: bool, abstraction: Abstraction,
                          projection: Projection, hasGraphPath: bool)
  {
    function MemoryId(): Id {
      if MemoryCandidate? then memory.memoryId else projection.projectionId
    }

    function RevisionId(): Id {
      if MemoryCandidate? then memory.revisionId else projection.revisionId
    }

    predicate CarriesVector() {
      MemoryCandidate? && hasVector
    }

    predicate CarriesGraphPath() {
      ProjectionCandidate? && hasGraphPath
    }
  }

  // A candidate that passed the hard filter, and its conflict group if it has one.
  datatype Prepared = Prepared(candidate: Candidate, group: Option<Id>)
  {
    function Lane(): Lane { candidate.lane }

    function RevisionId(): Id { candidate.RevisionId() }

    function PayloadOf(): Option<Payload> {
      if candidate.ProjectionCandidate? then candidate.projection.payload else None
    }

    function Sources(): seq<Id> {
      if candidate.ProjectionCandidate? then candidate.projection.sources else []
    }
  }

  datatype Reason =
    | CanonicalRevalidationRequired | CanonicalSourceChanged | ContentNotInline
    | DedupedByHigherAbstraction | DuplicateCandidate | OutsideValidity
    | ProjectionIneligible | ProjectionLaneMismatch | ProjectionStaleFrontier
    | ScopeExcluded | SensitivityExcluded | BudgetExceeded | Included | OtherReason(code: Id)

  function ReasonName(r: Reason): nat {
    match r
    case CanonicalRevalidationRequired => 0
    case CanonicalSourceChanged => 1
    case ContentNotInline => 2
    case DedupedByHigherAbstraction => 3
    case DuplicateCandidate => 4
    case OutsideValidity => 5
    case ProjectionIneligible => 6
    case ProjectionLaneMismatch => 7
    case ProjectionStaleFrontier => 8
    case ScopeExcluded => 9
    case SensitivityExcluded => 10
    case BudgetExceeded => 11
    case Included => 12
    case OtherReason(code) => 13 + code
  }

  datatype Exclusion = Exclusion(
    memoryId: Id, revisionId: Id, lane: Lane, reason: Reason, score: Option<int>,
    hasGraphPath: bool, hasVector: bool)

  function Exclude(c: Candidate, reason: Reason): Exclusion {
    Exclusion(c.MemoryId(), c.RevisionId(), c.lane, reason, Some(c.rank), c.CarriesGraphPath(), c.CarriesVector())
  }
}
