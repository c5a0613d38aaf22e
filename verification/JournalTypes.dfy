/** The vocabulary of the Decision Journal: mission snapshots, journal events and the bytes
    that retain them.  SHA-256 is a constructor, so equal digests mean equal bytes. */
module JournalTypes {
  import opened Options

  const MAX_FILE_BYTES := 64 * 1024 * 1024

  datatype RunMode = Live | Replay

  datatype Domain = Trading | Investment | CapitalAllocation | Unclassified

  datatype Execution = NotExecuted | ShadowOnly

  /** Relative evidence paths; the named ones are spelled out by the source. */
  datatype Path = RequestPath | RevisionPath(revision: nat) | EvaluationPath(id: string) | PolicyPath | OtherPath(text: string)

  datatype Digest = Sha(blob: Blob)

  /** Bytes, as the document they parse to; `canonical` bytes are that document's canonical JSON. */
  datatype Blob = Blob(document: Document, canonical: bool, size: nat)

  datatype Document =
    | SnapshotDoc(snapshot: Snapshot)
    | RequestDoc(request: Request)
    | NativeDoc(fields: map<string, string>)
    | PlanDoc(plan: map<string, string>, refs: map<string, Path>, hashes: map<string, Digest>)
    | EvaluationDoc(evaluation: Evaluation)
    | PolicyDoc(policy: Policy)
    | OtherDoc(id: nat)

  datatype Request = Request(mission: string, request: string, mode: RunMode, symbol: string)

  datatype Artifact = Artifact(name: string, path: Path, sha: Digest, size: Option<nat>)

  datatype OperatorResult = OperatorResult(
    result: string, action: string, actionId: string, operatorId: string, scope: Option<string>)

  datatype PlanStatus = PlanStatus(planId: string, handoffId: string)

  datatype Snapshot = Snapshot(
    mission: string, request: string, mode: RunMode, revision: nat, previous: Option<Digest>,
    startedAt: int, observedAt: int, artifacts: seq<Artifact>, components: map<string, string>,
    summary: string, governor: Option<string>, operator: Option<OperatorResult>, plan: Option<PlanStatus>)

  /** `length` is the length of the canonical JSON. */
  datatype Evaluation = Evaluation(id: string, decision: DecisionId, recordedAt: int, conclusion: string, length: nat)

  datatype Policy = Policy(id: string, proposedAt: int, length: nat)

  /** Journal identities hash their kind together with their fields, so they are those fields. */
  datatype DecisionId =
    | MissionDecision(mission: string, request: string, mode: RunMode)
    | PolicyDecision(policy: string)
    | OtherDecision(id: nat)

  datatype EventId =
    | MissionEvent(decision: DecisionId, revision: nat)
    | EvaluationEvent(decision: DecisionId, evaluation: string)
    | PolicyEvent(decision: DecisionId)
    | OtherEvent(id: nat)

  /** The kind of a source fixes the event type. */
  datatype Source =
    | Mission(mission: string, request: string, mode: RunMode, revision: nat, sha: Digest)
    | Evaluated(evaluation: string, sha: Digest)
    | CapitalPolicy(policy: string, sha: Digest)
    | Governed(kind: nat, sha: Digest)

  datatype Ref = Ref(sha: Digest, size: nat)

  datatype Verdict = Verdict(disposition: Option<string>, id: Option<string>)

  datatype Authorization = NotRecorded | ShadowApproved(operator: OperatorResult) | Rejected(operator: OperatorResult)

  datatype Payload =
    | MissionPayload(reason: string, symbol: string, summary: string, verdict: Verdict,
                     authorization: Authorization, execution: Execution)
    | EvaluationPayload(evaluation: Evaluation, status: Execution)
    | PolicyPayload(policy: Policy)
    | GovernedPayload(id: nat)

  datatype Event = Event(
    id: EventId, decision: DecisionId, domain: Domain, recordedAt: int, source: Source,
    evidence: map<Path, Ref>, payload: Payload)

  function Shas(e: Event): set<Digest> {
    set p | p in e.evidence :: e.evidence[p].sha
  }

  function RefOf(b: Blob): Ref {
    Ref(Sha(b), b.size)
  }

  function EvaluationBytes(v: Evaluation): Blob {
    Blob(EvaluationDoc(v), true, v.length)
  }

  function PolicyBytes(p: Policy): Blob {
    Blob(PolicyDoc(p), true, p.length)
  }

  /** What `MissionSnapshot.from_mapping` accepts, as far as the journal relies on it. */
  predicate IsSnapshot(b: Blob) {
    && b.document.SnapshotDoc? && b.document.snapshot.revision >= 1
    && var artifacts := b.document.snapshot.artifacts;
       forall i, j :: 0 <= i < j < |artifacts| ==> artifacts[i].name != artifacts[j].name
  }

  /** What `JournalEvent.from_mapping` accepts. */
  predicate Contract(e: Event) {
    match e.source
    case Mission(_, _, _, revision, _) =>
      && revision >= 1 && e.payload.MissionPayload? && 0 < |e.payload.reason| <= 2048
      && (e.payload.authorization.ShadowApproved? ==> e.payload.authorization.operator.scope.Some?)
      && (e.payload.execution.ShadowOnly? ==> e.payload.authorization.ShadowApproved?)
    case Evaluated(evaluation, sha) =>
      && e.payload.EvaluationPayload? && e.payload.evaluation.id == evaluation
      && e.payload.evaluation.decision == e.decision && e.payload.evaluation.recordedAt == e.recordedAt
      && sha == Sha(EvaluationBytes(e.payload.evaluation))
    case CapitalPolicy(policy, sha) =>
      && e.domain.CapitalAllocation? && e.payload.PolicyPayload? && e.payload.policy.id == policy
      && e.payload.policy.proposedAt == e.recordedAt && sha == Sha(PolicyBytes(e.payload.policy))
    case Governed(_, _) =>
      e.payload.GovernedPayload? && e.id.OtherEvent?
  }
}
