/** The projection of a verified mission history onto journal events: a pure function of
    the captured bytes, and of each revision's own bytes alone. */
module JournalProjection {
  import opened Options
  import opened JournalTypes

  const UNCLASSIFIED_REASON := "Historical mission has no recorded desk classification."

  /** `VerifiedHistory`: the request, every snapshot revision and every declared source file. */
  datatype History = History(request: Blob, snapshots: seq<Blob>, files: map<Path, Blob>)

  function Named(artifacts: seq<Artifact>, name: string): Option<Artifact> {
    if artifacts == [] then None
    else if artifacts[0].name == name then Some(artifacts[0])
    else Named(artifacts[1..], name)
  }

  function Field(fields: map<string, string>, key: string): Option<string> {
    if key in fields then Some(fields[key]) else None
  }

  /** Characters `str.strip` removes, among ASCII. */
  predicate Space(c: char) {
    c == ' ' || '\t' <= c <= '\r' || '\U{1C}' <= c <= '\U{1F}'
  }

  predicate Blank(text: string) {
    forall i :: 0 <= i < |text| ==> Space(text[i])
  }

  predicate Trimmed(text: string) {
    text != "" && !Space(text[0]) && !Space(text[|text| - 1])
  }

  /** The paths one revision's event retains. */
  function Paths(s: Snapshot): set<Path> {
    {RequestPath, RevisionPath(s.revision)} + set a | a in s.artifacts :: a.path
  }

  /** `_validate_captured_evidence` for one revision. */
  predicate Captured(request: Blob, s: Snapshot, raw: Blob, files: map<Path, Blob>) {
    && RevisionPath(s.revision) in files && files[RevisionPath(s.revision)] == raw
    && RequestPath in files && files[RequestPath] == request
    && forall a :: a in s.artifacts ==>
         && a.path in files && Sha(files[a.path]) == a.sha
         && (a.size.Some? ==> files[a.path].size == a.size.value)
  }

  /** `_artifact_json`: the parsed artifact of that name, if the snapshot declares one. */
  function ArtifactDoc(s: Snapshot, files: map<Path, Blob>, name: string): Option<Document>
    requires forall a :: a in s.artifacts ==> a.path in files
  {
    NamedIsMember(s.artifacts, name);
    match Named(s.artifacts, name)
    case None => None
    case Some(a) => Some(files[a.path].document)
  }

  lemma NamedIsMember(artifacts: seq<Artifact>, name: string)
    ensures Named(artifacts, name).Some? ==> Named(artifacts, name).value in artifacts
  {
  }

  /** `_decision`: None when the native Governor record contradicts the snapshot. */
  function VerdictOf(s: Snapshot, native: Option<Document>): Option<Verdict> {
    match native
    case None => Some(Verdict(s.governor, None))
    case Some(NativeDoc(fields)) =>
      var id := Field(fields, "decision_id");
      if id.None? || Blank(id.value) || Field(fields, "decision_state") != s.governor then None
      else Some(Verdict(s.governor, id))
    case _ => None
  }

  /** `_authorization`. */
  function AuthorizationOf(s: Snapshot, native: Option<Document>): Option<Authorization> {
    if s.operator.None? then Some(NotRecorded)
    else
      var o := s.operator.value;
      if native.Some? &&
         !(&& native.value.NativeDoc?
           && Field(native.value.fields, "action_id") == Some(o.actionId)
           && Field(native.value.fields, "operator_id") == Some(o.operatorId)
           && Field(native.value.fields, "source_run_id") == Some(s.mission)
           && Field(native.value.fields, "resulting_status") == Some(o.result)
           && Field(native.value.fields, "action") == Some(o.action))
      then None
      else Some(if o.result == "APPROVED_FOR_HANDOFF" then ShadowApproved(o) else Rejected(o))
  }

  /** `_execution_status`: a recorded plan must carry verified SHADOW constraints and source lineage. */
  function ExecutionOf(s: Snapshot, native: Option<Document>): Option<Execution> {
    if s.plan.None? then Some(NotExecuted)
    else if native.None? || !native.value.PlanDoc? then None
    else
      var plan := native.value;
      if && Field(plan.plan, "schema_version") == Some("navigator_shadow_plan.v1")
         && Field(plan.plan, "planning_status") == Some("CREATED")
         && Field(plan.plan, "plan_id") == Some(s.plan.value.planId)
         && Field(plan.plan, "handoff_id") == Some(s.plan.value.handoffId)
         && Field(plan.plan, "source_run_id") == Some(s.mission)
         && Field(plan.plan, "validated_constraints") == Some("SHADOW")
         && plan.refs.Keys == plan.hashes.Keys
         && forall key :: key in plan.refs ==>
              exists a :: a in s.artifacts && a.path == plan.refs[key] && a.sha == plan.hashes[key]
      then Some(ShadowOnly)
      else None
  }

  /** One revision's event: None when the captured evidence is refused. */
  function ProjectOne(request: Blob, raw: Blob, files: map<Path, Blob>, domain: Domain, reason: string): Option<Event>
    requires request.document.RequestDoc? && raw.document.SnapshotDoc?
  {
    var r, s := request.document.request, raw.document.snapshot;
    if !Captured(request, s, raw, files) then None
    else
      var verdict := VerdictOf(s, ArtifactDoc(s, files, "governor_decision"));
      var authorization := AuthorizationOf(s, ArtifactDoc(s, files, "operator_action"));
      var execution := ExecutionOf(s, ArtifactDoc(s, files, "navigator_shadow_plan"));
      if verdict.None? || authorization.None? || execution.None? then None
      else
        var decision := MissionDecision(r.mission, r.request, r.mode);
        var e := Event(
          MissionEvent(decision, s.revision), decision, domain, s.observedAt,
          Mission(s.mission, s.request, s.mode, s.revision, Sha(files[RevisionPath(s.revision)])),
          map p | p in Paths(s) :: RefOf(files[p]),
          MissionPayload(reason, r.symbol, s.summary, verdict.value, authorization.value, execution.value));
        if Contract(e) then Some(e) else None
  }

  function ReasonText(reason: Option<string>): string {
    if reason.Some? then reason.value else UNCLASSIFIED_REASON
  }

  /** The arguments `project_history` accepts. */
  predicate Classified(domain: Domain, reason: Option<string>) {
    (reason.Some? ==> Trimmed(reason.value)) && (domain != Unclassified ==> reason.Some?)
  }

  /** The loop of `project_history` over the snapshots from `k` on; one refused revision refuses the whole. */
  function ProjectFrom(h: History, k: nat, domain: Domain, reason: string): Option<seq<Event>>
    requires k <= |h.snapshots| && Parses(h)
    decreases |h.snapshots| - k
  {
    if k == |h.snapshots| then Some([])
    else
      var first := ProjectOne(h.request, h.snapshots[k], h.files, domain, reason);
      if first.None? then None
      else
        var rest := ProjectFrom(h, k + 1, domain, reason);
        if rest.None? then None else Some([first.value] + rest.value)
  }

  predicate Parses(h: History) {
    && h.request.document.RequestDoc?
    && forall i :: 0 <= i < |h.snapshots| ==> IsSnapshot(h.snapshots[i])
  }

  function Project(h: History, domain: Domain, reason: Option<string>): Option<seq<Event>> {
    if !Classified(domain, reason) || !Parses(h) then None
    else ProjectFrom(h, 0, domain, ReasonText(reason))
  }

  /** Artifact names are unique in a snapshot, so a name has one parsed artifact or none. */
  lemma ArtifactDocIs(s: Snapshot, files: map<Path, Blob>, name: string)
    requires forall a :: a in s.artifacts ==> a.path in files
    requires forall i, j :: 0 <= i < j < |s.artifacts| ==> s.artifacts[i].name != s.artifacts[j].name
    ensures forall a :: a in s.artifacts && a.name == name ==> ArtifactDoc(s, files, name) == Some(files[a.path].document)
    ensures (forall a :: a in s.artifacts ==> a.name != name) ==> ArtifactDoc(s, files, name) == None
  {
    NamedIs(s.artifacts, name);
  }

  lemma {:induction false} NamedIs(artifacts: seq<Artifact>, name: string)
    requires forall i, j :: 0 <= i < j < |artifacts| ==> artifacts[i].name != artifacts[j].name
    ensures forall a :: a in artifacts && a.name == name ==> Named(artifacts, name) == Some(a)
    ensures (forall a :: a in artifacts ==> a.name != name) ==> Named(artifacts, name) == None
  {
    if artifacts != [] {
      NamedIs(artifacts[1..], name);
      assert artifacts == [artifacts[0]] + artifacts[1..];
      assert forall a :: a in artifacts[1..] ==> exists i :: 0 < i < |artifacts| && artifacts[i] == a;
    }
  }

  /** The native Governor decision, if there is one, has an identity and the snapshot's disposition. */
  predicate GovernorAgrees(s: Snapshot, native: Option<Document>) {
    native.Some? ==>
      && native.value.NativeDoc? && "decision_id" in native.value.fields && !Blank(native.value.fields["decision_id"])
      && (s.governor.Some? ==> "decision_state" in native.value.fields && native.value.fields["decision_state"] == s.governor.value)
      && (s.governor.None? ==> "decision_state" !in native.value.fields)
  }

  predicate Holds(fields: map<string, string>, key: string, value: string) {
    key in fields && fields[key] == value
  }

  /** The native operator action, if there is one, records the operator result of the snapshot. */
  predicate OperatorAgrees(s: Snapshot, native: Option<Document>) {
    s.operator.Some? && native.Some? ==>
      && native.value.NativeDoc?
      && Holds(native.value.fields, "action_id", s.operator.value.actionId)
      && Holds(native.value.fields, "operator_id", s.operator.value.operatorId)
      && Holds(native.value.fields, "source_run_id", s.mission)
      && Holds(native.value.fields, "resulting_status", s.operator.value.result)
      && Holds(native.value.fields, "action", s.operator.value.action)
  }

  /** A recorded plan comes with its native SHADOW plan, all of whose sources are declared artifacts. */
  predicate PlanAgrees(s: Snapshot, native: Option<Document>) {
    s.plan.Some? ==>
      && native.Some? && native.value.PlanDoc?
      && Holds(native.value.plan, "schema_version", "navigator_shadow_plan.v1")
      && Holds(native.value.plan, "planning_status", "CREATED")
      && Holds(native.value.plan, "plan_id", s.plan.value.planId)
      && Holds(native.value.plan, "handoff_id", s.plan.value.handoffId)
      && Holds(native.value.plan, "source_run_id", s.mission)
      && Holds(native.value.plan, "validated_constraints", "SHADOW")
      && (forall key :: key in native.value.refs ==> key in native.value.hashes)
      && (forall key :: key in native.value.hashes ==> key in native.value.refs)
      && forall key :: key in native.value.refs && key in native.value.hashes ==>
           exists a :: a in s.artifacts && a.path == native.value.refs[key] && a.sha == native.value.hashes[key]
  }

  predicate Approved(s: Snapshot) {
    s.operator.Some? && s.operator.value.result == "APPROVED_FOR_HANDOFF"
  }

  /** An event that reports a snapshot as it is and confers nothing. */
  predicate Reports(e: Event, request: Request, s: Snapshot, files: map<Path, Blob>)
    requires forall a :: a in s.artifacts ==> a.path in files
  {
    && e.recordedAt == s.observedAt
    && e.payload.MissionPayload? && e.payload.symbol == request.symbol && e.payload.summary == s.summary
    && e.payload.verdict.disposition == s.governor
    && (match ArtifactDoc(s, files, "governor_decision")
        case None => e.payload.verdict.id == None
        case Some(native) => native.NativeDoc? && "decision_id" in native.fields && e.payload.verdict.id == Some(native.fields["decision_id"]))
    && GovernorAgrees(s, ArtifactDoc(s, files, "governor_decision"))
    && OperatorAgrees(s, ArtifactDoc(s, files, "operator_action"))
    && PlanAgrees(s, ArtifactDoc(s, files, "navigator_shadow_plan"))
    && (e.payload.authorization.NotRecorded? <==> s.operator.None?)
    && (e.payload.authorization.ShadowApproved? <==> Approved(s))
    && (s.operator.Some? ==> e.payload.authorization.operator == s.operator.value)
    && (Approved(s) ==> s.operator.value.scope.Some?)
    && (e.payload.execution.ShadowOnly? <==> s.plan.Some?) && (s.plan.Some? ==> Approved(s))
  }

  /** A revision is projected exactly when its evidence is captured, no native record contradicts the
      snapshot, an approval has a scope, and a plan has an approval; and then its event reports it. */
  lemma ProjectedIff(request: Blob, raw: Blob, files: map<Path, Blob>, domain: Domain, reason: string)
    requires request.document.RequestDoc? && raw.document.SnapshotDoc?
    ensures ProjectOne(request, raw, files, domain, reason).Some? <==>
              var s := raw.document.snapshot;
              && Captured(request, s, raw, files)
              && GovernorAgrees(s, ArtifactDoc(s, files, "governor_decision"))
              && OperatorAgrees(s, ArtifactDoc(s, files, "operator_action"))
              && PlanAgrees(s, ArtifactDoc(s, files, "navigator_shadow_plan"))
              && (Approved(s) ==> s.operator.value.scope.Some?) && (s.plan.Some? ==> Approved(s))
              && s.revision >= 1 && 1 <= |reason| <= 2048
    ensures ProjectOne(request, raw, files, domain, reason).Some? ==>
              && (forall a :: a in raw.document.snapshot.artifacts ==> a.path in files)
              && Reports(ProjectOne(request, raw, files, domain, reason).value, request.document.request, raw.document.snapshot, files)
  {
    hide Named, ArtifactDoc, Blank;
    var s := raw.document.snapshot;
    if Captured(request, s, raw, files) {
      var governor, operator := ArtifactDoc(s, files, "governor_decision"), ArtifactDoc(s, files, "operator_action");
      var plan := ArtifactDoc(s, files, "navigator_shadow_plan");
      VerdictIff(s, governor);
      AuthorizationIff(s, operator);
      ExecutionIff(s, plan);
      hide Captured, VerdictOf, AuthorizationOf, ExecutionOf, GovernorAgrees, OperatorAgrees, PlanAgrees;
    }
  }

  lemma VerdictIff(s: Snapshot, native: Option<Document>)
    ensures VerdictOf(s, native).Some? <==> GovernorAgrees(s, native)
    ensures VerdictOf(s, native).Some? ==>
              && VerdictOf(s, native).value.disposition == s.governor
              && (native.None? ==> VerdictOf(s, native).value.id == None)
              && (native.Some? ==>
                    && native.value.NativeDoc? && "decision_id" in native.value.fields
                    && VerdictOf(s, native).value.id == Some(native.value.fields["decision_id"]))
  {
    hide Blank;
  }

  lemma AuthorizationIff(s: Snapshot, native: Option<Document>)
    ensures AuthorizationOf(s, native).Some? <==> OperatorAgrees(s, native)
    ensures AuthorizationOf(s, native).Some? ==>
              && (AuthorizationOf(s, native).value.NotRecorded? <==> s.operator.None?)
              && (AuthorizationOf(s, native).value.ShadowApproved? <==> Approved(s))
              && (s.operator.Some? ==> AuthorizationOf(s, native).value.operator == s.operator.value)
  {
  }

  lemma ExecutionIff(s: Snapshot, native: Option<Document>)
    ensures ExecutionOf(s, native).Some? <==> PlanAgrees(s, native)
    ensures ExecutionOf(s, native).Some? ==> (ExecutionOf(s, native).value.ShadowOnly? <==> s.plan.Some?)
  {
  }

  // ---------------------------------------------------------------- locality

  /** Two captures that agree on a revision's own paths project that revision alike. */
  lemma ProjectionIsLocal(request: Blob, raw: Blob, files: map<Path, Blob>, other: map<Path, Blob>,
                          domain: Domain, reason: string)
    requires request.document.RequestDoc? && raw.document.SnapshotDoc?
    requires forall p :: p in Paths(raw.document.snapshot) ==>
               (p in files <==> p in other) && (p in files ==> files[p] == other[p])
    ensures ProjectOne(request, raw, files, domain, reason) == ProjectOne(request, raw, other, domain, reason)
  {
    hide VerdictOf, AuthorizationOf, ExecutionOf, Contract, Named, RefOf;
    var s := raw.document.snapshot;
    assert Captured(request, s, raw, files) <==> Captured(request, s, raw, other) by {
      forall a | a in s.artifacts ensures a.path in Paths(s) {}
    }
    if Captured(request, s, raw, files) {
      forall a | a in s.artifacts ensures a.path in Paths(s) {}
      SameDocs(s, files, other, "governor_decision");
      SameDocs(s, files, other, "operator_action");
      SameDocs(s, files, other, "navigator_shadow_plan");
      assert (map p | p in Paths(s) :: RefOf(files[p])) == (map p | p in Paths(s) :: RefOf(other[p]));
    }
  }

  lemma SameDocs(s: Snapshot, files: map<Path, Blob>, other: map<Path, Blob>, name: string)
    requires forall a :: a in s.artifacts ==> a.path in files && a.path in other && files[a.path] == other[a.path]
    ensures ArtifactDoc(s, files, name) == ArtifactDoc(s, other, name)
  {
    NamedIsMember(s.artifacts, name);
  }

  /** Event k of a projected history is the projection of revision k. */
  lemma {:induction false} ProjectedAt(h: History, k: nat, domain: Domain, reason: string, i: nat)
    requires Parses(h) && k <= i < |h.snapshots| && ProjectFrom(h, k, domain, reason).Some?
    ensures |ProjectFrom(h, k, domain, reason).value| == |h.snapshots| - k
    ensures ProjectOne(h.request, h.snapshots[i], h.files, domain, reason)
              == Some(ProjectFrom(h, k, domain, reason).value[i - k])
    decreases |h.snapshots| - k
  {
    hide ProjectOne;
    if k + 1 < |h.snapshots| {
      ProjectedAt(h, k + 1, domain, reason, if i == k then k + 1 else i);
    }
  }

  /** The bytes an event retains, by path: what the store rebuilds before it re-projects. */
  function FilesOf(e: Event): map<Path, Blob> {
    map p | p in e.evidence :: e.evidence[p].sha.blob
  }

  /** One revision projects from the bytes its own event retains to that very event. */
  lemma ReprojectsFromItself(request: Blob, raw: Blob, files: map<Path, Blob>, domain: Domain, reason: string)
    requires request.document.RequestDoc? && raw.document.SnapshotDoc?
    requires ProjectOne(request, raw, files, domain, reason).Some?
    ensures var e := ProjectOne(request, raw, files, domain, reason).value;
      && Contract(e) && e.payload.MissionPayload? && e.payload.reason == reason
      && FilesOf(e).Keys == Paths(raw.document.snapshot)
      && (forall p :: p in FilesOf(e) ==> p in files && FilesOf(e)[p] == files[p])
      && ProjectOne(request, raw, FilesOf(e), domain, reason) == Some(e)
  {
    hide VerdictOf, AuthorizationOf, ExecutionOf, Contract, ArtifactDoc;
    var e := ProjectOne(request, raw, files, domain, reason).value;
    var s := raw.document.snapshot;
    forall p | p in Paths(s)
      ensures p in files && FilesOf(e)[p] == files[p]
    {
    }
    assert ProjectOne(request, raw, FilesOf(e), domain, reason) == Some(e) by {
      hide ProjectOne;
      ProjectionIsLocal(request, raw, files, FilesOf(e), domain, reason);
    }
    assert e.payload.reason == reason;
    assert Contract(e) && e.source.Mission?;
  }

  lemma ProjectSingle(request: Blob, raw: Blob, files: map<Path, Blob>, domain: Domain, reason: Option<string>)
    requires Classified(domain, reason) && request.document.RequestDoc? && IsSnapshot(raw)
    requires ProjectOne(request, raw, files, domain, ReasonText(reason)).Some?
    ensures Project(History(request, [raw], files), domain, reason)
              == Some([ProjectOne(request, raw, files, domain, ReasonText(reason)).value])
  {
    hide ProjectOne, Classified;
    var h := History(request, [raw], files);
    var e := ProjectOne(request, raw, files, domain, ReasonText(reason)).value;
    assert ProjectFrom(h, 1, domain, ReasonText(reason)) == Some([]);
    assert [e] + [] == [e];
    assert ProjectFrom(h, 0, domain, ReasonText(reason)) == Some([e]);
  }

  lemma ClassifiedText(domain: Domain, reason: Option<string>)
    requires Classified(domain, reason)
    ensures Classified(domain, Some(ReasonText(reason)))
  {
    var start := "Historical mission has no recorded";
    assert UNCLASSIFIED_REASON == start + " desk classification.";
  }

  /** Event k of an n-revision history is the projection of revision k alone, from the bytes
      that event itself retains: neither the other revisions nor the other files matter. */
  lemma EventStandsAlone(h: History, domain: Domain, reason: Option<string>, k: nat)
    requires Project(h, domain, reason).Some? && k < |h.snapshots|
    ensures |Project(h, domain, reason).value| == |h.snapshots|
    ensures var e := Project(h, domain, reason).value[k];
      && FilesOf(e).Keys == Paths(h.snapshots[k].document.snapshot)
      && e.payload.MissionPayload? && e.payload.reason == ReasonText(reason)
      && Project(History(h.request, [h.snapshots[k]], FilesOf(e)), domain, Some(e.payload.reason)) == Some([e])
  {
    hide ProjectOne, Classified, FilesOf, Paths, UNCLASSIFIED_REASON;
    var text := ReasonText(reason);
    ProjectedAt(h, 0, domain, text, k);
    ReprojectsFromItself(h.request, h.snapshots[k], h.files, domain, text);
    var e := Project(h, domain, reason).value[k];
    ClassifiedText(domain, reason);
    ProjectSingle(h.request, h.snapshots[k], FilesOf(e), domain, Some(text));
  }
}
