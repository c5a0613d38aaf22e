/** The command line's two retry-safe writers: exporting a mission history that keeps growing,
    and recording an evaluation that may be retried after later revisions. */
module JournalCli {
  import opened Options
  import opened JournalTypes
  import opened JournalProjection
  import opened JournalChain
  import opened JournalAppend

  // ---------------------------------------------------------------- export-mission

  predicate RequestDeclared(request: Blob, s: Snapshot) {
    && (forall a :: a in s.artifacts && a.name == "mission_request" ==> a.path == RequestPath && a.sha == Sha(request))
    && exists a :: a in s.artifacts && a.name == "mission_request"
  }

  predicate RevisionVerified(h: History, k: nat)
    requires Parses(h) && k < |h.snapshots|
  {
    var r, s := h.request.document.request, h.snapshots[k].document.snapshot;
    && s.mission == r.mission && s.request == r.request && s.mode == r.mode
    && Captured(h.request, s, h.snapshots[k], h.files) && RequestDeclared(h.request, s)
    && s.revision == k + 1
    && (if k == 0 then s.previous == None
        else
          && s.previous == Some(Sha(h.snapshots[k - 1]))
          && s.startedAt == h.snapshots[0].document.snapshot.startedAt
          && Continues(h.snapshots[k - 1].document.snapshot.(startedAt := s.startedAt), s))
  }

  /** What `load_verified_history` establishes about the bytes it captured. */
  predicate VerifiedHistory(h: History) {
    && Parses(h) && h.snapshots != []
    && (forall p :: p in h.files ==> h.files[p].size <= MAX_FILE_BYTES)
    && forall k :: 0 <= k < |h.snapshots| ==> RevisionVerified(h, k)
  }

  function DecisionOf(h: History): DecisionId
    requires Parses(h)
  {
    MissionDecision(h.request.document.request.mission, h.request.document.request.request, h.request.document.request.mode)
  }

  function Evidence(h: History, e: Event): map<Key, Blob> {
    map p | p in e.evidence && p in h.files :: ByPath(p) := h.files[p]
  }

  function Materials(h: History, events: seq<Event>): seq<Material> {
    seq(|events|, i requires 0 <= i < |events| => Material(events[i], Evidence(h, events[i])))
  }

  /** `export-mission`: None when the history is refused or some append is. */
  function Export(rules: Rules, j: Journal, h: History, domain: Domain, reason: Option<string>): Option<Appended> {
    if !VerifiedHistory(h) then None
    else
      var events := Project(h, domain, reason);
      if events.None? then None else AppendAll(rules, j, Materials(h, events.value))
  }

  /** What the projection says about its k-th event. */
  ghost predicate EventOf(h: History, domain: Domain, reason: Option<string>, k: nat, e: Event)
    requires Parses(h) && k < |h.snapshots|
  {
    var s := h.snapshots[k].document.snapshot;
    && e.decision == DecisionOf(h) && e.domain == domain && e.id == MissionEvent(DecisionOf(h), s.revision)
    && e.source == Mission(s.mission, s.request, s.mode, s.revision, Sha(h.snapshots[k]))
    && Contract(e) && Paths(s) == e.evidence.Keys
    && (forall p :: p in Paths(s) ==> p in h.files && e.evidence[p] == RefOf(h.files[p]))
    && Captured(h.request, s, h.snapshots[k], h.files)
    && e.payload.MissionPayload?
    && Project(History(h.request, [h.snapshots[k]], FilesOf(e)), e.domain, Some(e.payload.reason)) == Some([e])
  }

  lemma ProjectedEvent(h: History, domain: Domain, reason: Option<string>, k: nat)
    requires Project(h, domain, reason).Some? && k < |h.snapshots|
    ensures |Project(h, domain, reason).value| == |h.snapshots|
    ensures EventOf(h, domain, reason, k, Project(h, domain, reason).value[k])
  {
    hide VerdictOf, AuthorizationOf, ExecutionOf, ArtifactDoc, Contract, Captured, Paths, Classified, UNCLASSIFIED_REASON;
    EventStandsAlone(h, domain, reason, k);
    var e := Project(h, domain, reason).value[k];
    ProjectedAt(h, 0, domain, ReasonText(reason), k);
    assert ProjectOne(h.request, h.snapshots[k], h.files, domain, ReasonText(reason)) == Some(e) by {
      hide ProjectOne;
    }
    CapturedPaths(h.request, h.snapshots[k].document.snapshot, h.snapshots[k], h.files);
  }

  lemma CapturedPaths(request: Blob, s: Snapshot, raw: Blob, files: map<Path, Blob>)
    requires Captured(request, s, raw, files)
    ensures Paths(s) <= files.Keys
    ensures RevisionPath(s.revision) in Paths(s) && files[RevisionPath(s.revision)] == raw
  {
  }

  lemma SuppliesItself(h: History, domain: Domain, reason: Option<string>, k: nat, e: Event)
    requires VerifiedHistory(h) && k < |h.snapshots| && EventOf(h, domain, reason, k, e)
    ensures Shas(e) <= Supplied(Evidence(h, e)) && Retained(e, Shas(e)) && e.source.sha in Shas(e)
    ensures forall key :: key in Evidence(h, e) ==> GoodKey(e, key, Evidence(h, e)[key])
    ensures FilesOf(e)[RequestPath] == h.request && RevisionPath(e.source.revision) in e.evidence
    ensures e.evidence[RevisionPath(e.source.revision)].sha == e.source.sha
  {
    hide Contract, Project;
    assert RevisionVerified(h, k);
    var s := h.snapshots[k].document.snapshot;
    forall p | p in e.evidence
      ensures e.evidence[p].sha in Supplied(Evidence(h, e))
      ensures e.evidence[p].sha.blob == h.files[p] && h.files[p].size <= MAX_FILE_BYTES
    {
      assert ByPath(p) in Evidence(h, e) && Evidence(h, e)[ByPath(p)] == h.files[p];
    }
    assert RevisionPath(s.revision) in e.evidence && RequestPath in e.evidence;
  }

  ghost predicate OneDomain(events: seq<Event>, d: DecisionId, domain: Domain) {
    forall e :: e in events && e.decision == d ==> e.domain == domain
  }

  ghost predicate OwnIdentities(events: seq<Event>, d: DecisionId) {
    forall e :: e in events && e.id.MissionEvent? && e.id.decision == d ==> e in Missions(events, d)
  }

  /** The k-th of these mission events is accepted after any chain that holds the earlier ones. */
  ghost predicate AcceptedAt(rules: Rules, events: seq<Event>, d: DecisionId, domain: Domain, k: nat)
    requires k < |events|
  {
    && events[k].decision == d && events[k].domain == domain && events[k].source.Mission?
    && forall before {:trigger Missions(before, d)} ::
         Missions(before, d) == events[..k] && OneDomain(before, d, domain) && OwnIdentities(before, d)
         ==> ValidEvent(rules, events[k], before, Shas(events[k]))
  }

  /** Every verified history is accepted in order by the store's MISSION check. */
  lemma AcceptedInOrder(rules: Rules, h: History, domain: Domain, reason: Option<string>, k: nat)
    requires VerifiedHistory(h) && Project(h, domain, reason).Some? && k < |h.snapshots|
    ensures |Project(h, domain, reason).value| == |h.snapshots|
    ensures AcceptedAt(rules, Project(h, domain, reason).value, DecisionOf(h), domain, k)
  {
    hide Contract, Project, Missions, OneDomain, OwnIdentities, ValidEvent, Shas, RevisionVerified, FilesOf, Captured;
    ProjectedEvent(h, domain, reason, k);
    var events, d := Project(h, domain, reason).value, DecisionOf(h);
    forall before | Missions(before, d) == events[..k] && OneDomain(before, d, domain) && OwnIdentities(before, d)
      ensures ValidEvent(rules, events[k], before, Shas(events[k]))
    {
      AcceptedAfter(rules, h, domain, reason, k, before);
    }
  }

  lemma AcceptedAfter(rules: Rules, h: History, domain: Domain, reason: Option<string>, k: nat, before: seq<Event>)
    requires VerifiedHistory(h) && Project(h, domain, reason).Some? && k < |h.snapshots| == |Project(h, domain, reason).value|
    requires Missions(before, DecisionOf(h)) == Project(h, domain, reason).value[..k]
    requires OneDomain(before, DecisionOf(h), domain) && OwnIdentities(before, DecisionOf(h))
    ensures ValidEvent(rules, Project(h, domain, reason).value[k], before, Shas(Project(h, domain, reason).value[k]))
  {
    hide Contract, Project, Captured, Missions, Retained, Shas, FilesOf, RequestDeclared, ValidMission;
    var events := Project(h, domain, reason).value;
    var e := events[k];
    ProjectedEvent(h, domain, reason, k);
    SuppliesItself(h, domain, reason, k, e);
    forall x | 0 <= x < k
      ensures events[x].id != e.id
    {
      ProjectedEvent(h, domain, reason, x);
      assert RevisionVerified(h, x) && RevisionVerified(h, k);
    }
    assert forall i :: 0 <= i < |before| ==> before[i].id == e.id ==> before[i] in events[..k];
    assert ValidMission(e, before) by {
      hide OneDomain, OwnIdentities;
      ValidRevision(h, domain, reason, k, events, before);
    }
  }

  lemma ValidRevision(h: History, domain: Domain, reason: Option<string>, k: nat, events: seq<Event>, before: seq<Event>)
    requires VerifiedHistory(h) && k < |h.snapshots| == |events| && Project(h, domain, reason) == Some(events)
    requires EventOf(h, domain, reason, k, events[k])
    requires Missions(before, DecisionOf(h)) == events[..k]
    ensures ValidMission(events[k], before)
  {
    hide Contract, Project, Captured, Missions, Shas, FilesOf, RequestDeclared, Continues, Paths;
    var e := events[k];
    SuppliesItself(h, domain, reason, k, e);
    ArtifactsRetained(h, domain, reason, k, e);
    assert RevisionVerified(h, k) && IsSnapshot(h.snapshots[k]);
    assert |Missions(before, DecisionOf(h))| == k;
    assert e.source.sha == Sha(h.snapshots[k]) && SnapshotOf(e) == h.snapshots[k].document.snapshot;
    if k > 0 {
      ProjectedEvent(h, domain, reason, k - 1);
      assert RevisionVerified(h, k - 1);
      assert Missions(before, DecisionOf(h))[k - 1] == events[k - 1];
      SameStart(h, k);
    }
  }

  lemma SameStart(h: History, k: nat)
    requires VerifiedHistory(h) && 0 < k < |h.snapshots|
    ensures Continues(h.snapshots[k - 1].document.snapshot, h.snapshots[k].document.snapshot)
  {
    hide Captured, RequestDeclared;
    assert RevisionVerified(h, k) && RevisionVerified(h, k - 1);
  }

  lemma ArtifactsRetained(h: History, domain: Domain, reason: Option<string>, k: nat, e: Event)
    requires VerifiedHistory(h) && k < |h.snapshots| && EventOf(h, domain, reason, k, e)
    ensures forall a :: a in h.snapshots[k].document.snapshot.artifacts ==>
              a.path in e.evidence && e.evidence[a.path].sha == a.sha
    ensures RequestPath in e.evidence
  {
    hide Contract, Project;
    forall a | a in h.snapshots[k].document.snapshot.artifacts
      ensures a.path in e.evidence && e.evidence[a.path].sha == a.sha
    {
      assert a.path in Paths(h.snapshots[k].document.snapshot);
    }
    assert RequestPath in Paths(h.snapshots[k].document.snapshot);
  }

  /** Identities are derived from kind and source, so a mission identity is a mission's. */
  lemma MissionIdentities(rules: Rules, events: seq<Event>, blobs: set<Digest>, d: DecisionId)
    requires ValidChain(rules, events, blobs)
    ensures OwnIdentities(events, d)
  {
    hide Retained, Missions, Project, Continues, IsSnapshot;
    MissionsAreIn(events, d);
    forall i | 0 <= i < |events| && events[i].id.MissionEvent? && events[i].id.decision == d
      ensures events[i].decision == d && events[i].source.Mission?
    {
      assert ValidEvent(rules, events[i], events[..i], blobs);
    }
  }

  /** A chain that held the first m of these events, after the first n have been submitted. */
  function Grown(start: seq<Event>, events: seq<Event>, m: nat, n: nat): seq<Event>
    requires n <= |events|
  {
    if n <= m then start else start + events[m..n]
  }

  /** The journal already holds the first m of these mission events, and nothing against them. */
  ghost predicate Imported(rules: Rules, j: Journal, events: seq<Event>, d: DecisionId, domain: Domain, m: nat) {
    && m <= |events| && ValidChain(rules, j.events, j.blobs)
    && Missions(j.events, d) == events[..m] && OneDomain(j.events, d, domain)
    && (forall k :: 0 <= k < |events| ==> AcceptedAt(rules, events, d, domain, k))
  }

  ghost predicate Fits(rules: Rules, start: seq<Event>, events: seq<Event>, m: nat) {
    && (forall k :: 0 <= k < |events| ==> rules.eventSize(events[k]) <= MAX_FILE_BYTES)
    && (forall n :: m < n <= |events| ==> EntryFits(rules, Grown(start, events, m, n)))
  }

  lemma GrownNext(start: seq<Event>, events: seq<Event>, m: nat, n: nat)
    requires m <= n < |events|
    ensures Grown(start, events, m, n + 1) == Grown(start, events, m, n) + [events[n]]
  {
    if n == m { assert start + events[m..n + 1] == start + [events[n]]; }
  }

  lemma {:induction false} GrownMissions(rules: Rules, j: Journal, events: seq<Event>, d: DecisionId, domain: Domain, m: nat, n: nat)
    requires Imported(rules, j, events, d, domain, m) && m <= n <= |events|
    ensures Missions(Grown(j.events, events, m, n), d) == events[..n]
    ensures OneDomain(Grown(j.events, events, m, n), d, domain)
  {
    hide ValidChain, Missions, Grown;
    if n == m {
      assert Grown(j.events, events, m, n) == j.events by { GrownStart(j.events, events, m); }
    } else {
      GrownMissions(rules, j, events, d, domain, m, n - 1);
      GrownNext(j.events, events, m, n - 1);
      assert AcceptedAt(rules, events, d, domain, n - 1);
      MissionsOfAppend(Grown(j.events, events, m, n - 1), events[n - 1], d);
      assert events[..n] == events[..n - 1] + [events[n - 1]];
    }
  }

  lemma GrownStart(start: seq<Event>, events: seq<Event>, m: nat)
    requires m <= |events|
    ensures Grown(start, events, m, m) == start
  {
  }

  lemma AlreadyImported(rules: Rules, j: Journal, events: seq<Event>, d: DecisionId, domain: Domain, m: nat, k: nat, own: set<Digest>)
    requires Imported(rules, j, events, d, domain, m) && k < m
    ensures Find(j.events, events[k].id).Some?
    ensures Step(rules, j.events, events[k], own) == Some(Stepped(j.events, Result(false, Find(j.events, events[k].id).value + 1)))
  {
    hide ValidEvent, ValidChain, EntryFits, Missions, AcceptedAt;
    MissionsAreIn(j.events, d);
    assert events[k] == events[..m][k];
    assert events[k] in j.events;
    var x :| 0 <= x < |j.events| && j.events[x] == events[k];
    FindUnique(rules, j.events, j.blobs, x);
  }

  lemma NewRevision(rules: Rules, j: Journal, blobs: set<Digest>, events: seq<Event>, d: DecisionId, domain: Domain,
                    m: nat, n: nat, own: set<Digest>)
    requires Imported(rules, j, events, d, domain, m) && m <= n < |events| && Fits(rules, j.events, events, m)
    requires ValidChain(rules, Grown(j.events, events, m, n), blobs) && Shas(events[n]) <= own
    ensures var before := Grown(j.events, events, m, n);
      Step(rules, before, events[n], own) == Some(Stepped(Grown(j.events, events, m, n + 1), Result(true, |before| + 1)))
  {
    hide ValidChain, ValidEvent, EntryFits, Missions, Grown, Shas, OneDomain, OwnIdentities;
    var before := Grown(j.events, events, m, n);
    GrownMissions(rules, j, events, d, domain, m, n);
    MissionIdentities(rules, before, blobs, d);
    assert AcceptedAt(rules, events, d, domain, n);
    ValidWithMore(rules, events[n], before, Shas(events[n]), own);
    GrownNext(j.events, events, m, n);
    FreshId(rules, events[n], before, own);
  }

  lemma FreshId(rules: Rules, e: Event, before: seq<Event>, blobs: set<Digest>)
    requires ValidEvent(rules, e, before, blobs)
    ensures Find(before, e.id).None?
  {
    hide Contract, Retained, ValidSource;
  }

  lemma {:induction false} AppendsNew(rules: Rules, j: Journal, ms: seq<Material>, events: seq<Event>, d: DecisionId, domain: Domain, m: nat)
    requires Imported(rules, j, events, d, domain, m) && Fits(rules, j.events, events, m)
    requires |ms| <= |events|
    requires forall k :: 0 <= k < |ms| ==>
               ms[k].event == events[k] && WellFormed(rules, ms[k]) && Shas(events[k]) <= Supplied(ms[k].evidence)
    ensures AppendAll(rules, j, ms).Some?
    ensures var done := AppendAll(rules, j, ms).value;
      && done.journal.events == Grown(j.events, events, m, |ms|)
      && ValidChain(rules, done.journal.events, done.journal.blobs)
      && |done.results| == |ms| && forall k :: 0 <= k < |ms| ==> (done.results[k].written <==> k >= m)
  {
    hide Imported, Fits, ValidChain, Step, WellFormed, Supplied, Shas, Grown;
    if ms == [] {
      assert Grown(j.events, events, m, 0) == j.events && ValidChain(rules, j.events, j.blobs) by {
        ImportedStart(rules, j, events, d, domain, m);
      }
    } else {
      var n := |ms| - 1;
      AppendsNew(rules, j, ms[..n], events, d, domain, m);
      var done := AppendAll(rules, j, ms[..n]).value;
      var own := done.journal.blobs + Supplied(ms[n].evidence);
      if n < m {
        AlreadyImported(rules, j, events, d, domain, m, n, own);
        assert Grown(j.events, events, m, n) == Grown(j.events, events, m, n + 1) == j.events by { GrownShort(j.events, events, m, n); }
      } else {
        NewRevision(rules, j, done.journal.blobs, events, d, domain, m, n, own);
      }
      AppendOneIsStep(rules, done.journal, ms[n], own);
    }
  }

  lemma GrownShort(start: seq<Event>, events: seq<Event>, m: nat, n: nat)
    requires n < m && n < |events|
    ensures Grown(start, events, m, n) == Grown(start, events, m, n + 1) == start
  {
  }

  lemma ImportedStart(rules: Rules, j: Journal, events: seq<Event>, d: DecisionId, domain: Domain, m: nat)
    requires Imported(rules, j, events, d, domain, m)
    ensures ValidChain(rules, j.events, j.blobs) && Grown(j.events, events, m, 0) == j.events
  {
    hide ValidChain;
  }

  lemma MaterialIsGood(rules: Rules, h: History, domain: Domain, reason: Option<string>, k: nat)
    requires VerifiedHistory(h) && Project(h, domain, reason).Some? && k < |Project(h, domain, reason).value|
    requires rules.eventSize(Project(h, domain, reason).value[k]) <= MAX_FILE_BYTES
    ensures var events := Project(h, domain, reason).value;
      && WellFormed(rules, Materials(h, events)[k])
      && Shas(events[k]) <= Supplied(Materials(h, events)[k].evidence)
  {
    hide Contract, Project, RevisionVerified, GoodKey, Shas, Captured;
    ProjectedLength(h, domain, reason);
    ProjectedEvent(h, domain, reason, k);
    SuppliesItself(h, domain, reason, k, Project(h, domain, reason).value[k]);
  }

  lemma ProjectedLength(h: History, domain: Domain, reason: Option<string>)
    requires Project(h, domain, reason).Some?
    ensures |Project(h, domain, reason).value| == |h.snapshots|
  {
    hide ProjectOne, Classified;
    if h.snapshots != [] { ProjectedAt(h, 0, domain, ReasonText(reason), 0); }
  }

  /** Re-exporting a mission that has grown, under the same domain and reason, is accepted and
      writes exactly the new revisions, in order; the others are recognised as retries. */
  lemma ExportWritesNewRevisions(rules: Rules, j: Journal, h: History, domain: Domain, reason: Option<string>, m: nat)
    requires VerifiedHistory(h) && Project(h, domain, reason).Some? && ValidChain(rules, j.events, j.blobs)
    requires m <= |Project(h, domain, reason).value| && Fits(rules, j.events, Project(h, domain, reason).value, m)
    requires Missions(j.events, DecisionOf(h)) == Project(h, domain, reason).value[..m]
    requires OneDomain(j.events, DecisionOf(h), domain)
    ensures Export(rules, j, h, domain, reason).Some?
    ensures var events, done := Project(h, domain, reason).value, Export(rules, j, h, domain, reason).value;
      && done.journal.events == j.events + events[m..]
      && |done.results| == |events| && forall k :: 0 <= k < |events| ==> (done.results[k].written <==> k >= m)
  {
    hide Project, RevisionVerified, ValidChain, Missions, OneDomain, WellFormed, Shas, Supplied, EntryFits, AcceptedAt, DecisionOf;
    var events, d := Project(h, domain, reason).value, DecisionOf(h);
    ProjectedLength(h, domain, reason);
    forall k | 0 <= k < |events|
      ensures AcceptedAt(rules, events, d, domain, k)
      ensures WellFormed(rules, Materials(h, events)[k]) && Shas(events[k]) <= Supplied(Materials(h, events)[k].evidence)
    {
      AcceptedInOrder(rules, h, domain, reason, k);
      MaterialIsGood(rules, h, domain, reason, k);
    }
    AppendsNew(rules, j, Materials(h, events), events, d, domain, m);
    assert Grown(j.events, events, m, |events|) == j.events + events[m..];
  }

  /** `later` captures the same mission after more revisions. */
  ghost predicate Extends(later: History, h: History) {
    && later.request == h.request && h.snapshots <= later.snapshots
    && forall p :: p in h.files ==> p in later.files && later.files[p] == h.files[p]
  }

  /** Growth changes no event that was projected before. */
  lemma GrowthKeepsEvents(h: History, later: History, domain: Domain, reason: Option<string>, k: nat)
    requires Project(h, domain, reason).Some? && Project(later, domain, reason).Some? && Extends(later, h)
    requires k < |h.snapshots|
    ensures |Project(h, domain, reason).value| == |h.snapshots| <= |Project(later, domain, reason).value|
    ensures Project(h, domain, reason).value[k] == Project(later, domain, reason).value[k]
  {
    hide ProjectOne, Classified, Captured, Paths;
    var text := ReasonText(reason);
    ProjectedLength(h, domain, reason);
    ProjectedLength(later, domain, reason);
    ProjectedAt(h, 0, domain, text, k);
    ProjectedAt(later, 0, domain, text, k);
    ProjectedCaptures(h.request, h.snapshots[k], h.files, domain, text);
    ProjectionIsLocal(h.request, h.snapshots[k], h.files, later.files, domain, text);
  }

  lemma ProjectedCaptures(request: Blob, raw: Blob, files: map<Path, Blob>, domain: Domain, reason: string)
    requires request.document.RequestDoc? && raw.document.SnapshotDoc?
    requires ProjectOne(request, raw, files, domain, reason).Some?
    ensures Paths(raw.document.snapshot) <= files.Keys
  {
    hide VerdictOf, AuthorizationOf, ExecutionOf, Contract, ArtifactDoc;
  }

  /** Import, growth, re-import: the second export adds exactly the revisions recorded in between. */
  lemma ExportAgain(rules: Rules, j: Journal, h: History, later: History, domain: Domain, reason: Option<string>)
    requires VerifiedHistory(h) && VerifiedHistory(later) && Extends(later, h)
    requires Project(h, domain, reason).Some? && Project(later, domain, reason).Some?
    requires ValidChain(rules, j.events, j.blobs) && Missions(j.events, DecisionOf(h)) == [] && OneDomain(j.events, DecisionOf(h), domain)
    requires Fits(rules, j.events, Project(later, domain, reason).value, 0)
    ensures Export(rules, j, h, domain, reason).Some?
    ensures var first := Export(rules, j, h, domain, reason).value.journal;
      && first.events == j.events + Project(h, domain, reason).value
      && Export(rules, first, later, domain, reason).Some?
      && var again := Export(rules, first, later, domain, reason).value;
         && again.journal.events == j.events + Project(later, domain, reason).value
         && forall k :: 0 <= k < |again.results| ==> (again.results[k].written <==> k >= |h.snapshots|)
  {
    hide Project, RevisionVerified, ValidChain, Missions, OneDomain, EntryFits, AcceptedAt, Parses, AppendAll;
    var events, all := Project(h, domain, reason).value, Project(later, domain, reason).value;
    var n := |h.snapshots|;
    assert Parses(h) && Parses(later) && DecisionOf(h) == DecisionOf(later);
    ProjectedLength(h, domain, reason);
    ProjectedLength(later, domain, reason);
    assert events == all[..n] by {
      forall k | 0 <= k < n ensures events[k] == all[k] { GrowthKeepsEvents(h, later, domain, reason, k); }
    }
    assert Fits(rules, j.events, events, 0) by {
      forall k | 0 < k <= n
        ensures Grown(j.events, events, 0, k) == Grown(j.events, all, 0, k)
      {
        assert events[..k] == all[..k];
      }
    }
    assert events[..0] == [] && events[0..] == events;
    ExportWritesNewRevisions(rules, j, h, domain, reason, 0);
    var first := Export(rules, j, h, domain, reason).value.journal;
    ExportedMissions(rules, j, h, domain, reason);
    assert Fits(rules, first.events, all, n) by {
      forall k | n < k <= |all|
        ensures Grown(first.events, all, n, k) == Grown(j.events, all, 0, k)
      {
        assert all[..k] == all[..n] + all[n..k];
      }
    }
    ExportWritesNewRevisions(rules, first, later, domain, reason, n);
    assert first.events + all[n..] == j.events + all;
  }

  lemma ExportedMissions(rules: Rules, j: Journal, h: History, domain: Domain, reason: Option<string>)
    requires VerifiedHistory(h) && Project(h, domain, reason).Some? && ValidChain(rules, j.events, j.blobs)
    requires Missions(j.events, DecisionOf(h)) == [] && OneDomain(j.events, DecisionOf(h), domain)
    requires Fits(rules, j.events, Project(h, domain, reason).value, 0)
    ensures Export(rules, j, h, domain, reason).Some?
    ensures var done := Export(rules, j, h, domain, reason).value.journal;
      && ValidChain(rules, done.events, done.blobs)
      && Missions(done.events, DecisionOf(h)) == Project(h, domain, reason).value
      && OneDomain(done.events, DecisionOf(h), domain)
  {
    hide Project, RevisionVerified, ValidChain, Missions, OneDomain, WellFormed, Shas, Supplied, EntryFits, AcceptedAt, DecisionOf;
    var events, d := Project(h, domain, reason).value, DecisionOf(h);
    ProjectedLength(h, domain, reason);
    forall k | 0 <= k < |events|
      ensures AcceptedAt(rules, events, d, domain, k)
      ensures WellFormed(rules, Materials(h, events)[k]) && Shas(events[k]) <= Supplied(Materials(h, events)[k].evidence)
    {
      AcceptedInOrder(rules, h, domain, reason, k);
      MaterialIsGood(rules, h, domain, reason, k);
    }
    assert events[..0] == [] && events[..|events|] == events;
    AppendsNew(rules, j, Materials(h, events), events, d, domain, 0);
    GrownMissions(rules, j, events, d, domain, 0, |events|);
  }

  // ---------------------------------------------------------------- append-evaluation

  predicate SameEvaluation(e: Event, v: Evaluation) {
    e.source.Evaluated? && e.decision == v.decision && e.source.evaluation == v.id
  }

  /** The chain an evaluation is built against: everything before its first recording. */
  function Context(events: seq<Event>, v: Evaluation): (r: seq<Event>)
    ensures r <= events
    ensures forall i :: 0 <= i < |r| ==> !SameEvaluation(events[i], v)
    ensures |r| < |events| ==> SameEvaluation(events[|r|], v)
  {
    if events == [] then []
    else
      var n := |events| - 1;
      var shorter := Context(events[..n], v);
      if |shorter| < n then shorter
      else if SameEvaluation(events[n], v) then shorter
      else events
  }

  /** `build_evaluation_event`. */
  function BuildEvaluation(v: Evaluation, original: Event): Event
    requires original.payload.MissionPayload?
  {
    Event(EvaluationEvent(original.decision, v.id), original.decision, original.domain, v.recordedAt,
          Evaluated(v.id, Sha(EvaluationBytes(v))),
          map[EvaluationPath(v.id) := RefOf(EvaluationBytes(v))],
          EvaluationPayload(v, original.payload.execution))
  }

  /** The event `append-evaluation` submits, if the mission is known. */
  function Submitted(events: seq<Event>, v: Evaluation): Option<Event> {
    var ms := Missions(Context(events, v), v.decision);
    if ms == [] || !ms[|ms| - 1].payload.MissionPayload? then None
    else Some(BuildEvaluation(v, ms[|ms| - 1]))
  }

  function AppendEvaluation(rules: Rules, j: Journal, v: Evaluation): Option<Appended> {
    var e := Submitted(j.events, v);
    if e.None? then None
    else AppendOne(rules, j, Material(e.value, map[ByPath(EvaluationPath(v.id)) := EvaluationBytes(v)]))
  }

  /** What the verifier knows about a recorded evaluation. */
  lemma RecordedEvaluation(rules: Rules, events: seq<Event>, blobs: set<Digest>, i: nat, v: Evaluation)
    requires ValidChain(rules, events, blobs) && i < |events| && SameEvaluation(events[i], v)
    ensures var ms := Missions(events[..i], v.decision);
      && ms != [] && ms[|ms| - 1].payload.MissionPayload?
      && ms[|ms| - 1].decision == v.decision && ms[|ms| - 1].domain == events[i].domain
      && events[i].payload.EvaluationPayload? && events[i].payload.status == ms[|ms| - 1].payload.execution
      && events[i].source.sha == Sha(EvaluationBytes(events[i].payload.evaluation))
      && events[i].recordedAt == events[i].payload.evaluation.recordedAt
    ensures events[i].id == EvaluationEvent(v.decision, v.id)
  {
    hide Retained, Missions;
    assert ValidEvent(rules, events[i], events[..i], blobs);
    var ms := Missions(events[..i], v.decision);
    MissionsAreIn(events[..i], v.decision);
    assert ms[|ms| - 1] in events[..i];
  }

  /** Retrying an evaluation rebuilds the recorded event exactly when it submits the recorded
      content, whatever has been appended since. */
  lemma EvaluationRebuilds(rules: Rules, events: seq<Event>, blobs: set<Digest>, v: Evaluation)
    requires ValidChain(rules, events, blobs) && |Context(events, v)| < |events|
    ensures Submitted(events, v).Some?
    ensures var e := events[|Context(events, v)|];
      Submitted(events, v).value == e <==>
        && e.payload.EvaluationPayload? && e.payload.evaluation == v
        && e.evidence == map[EvaluationPath(v.id) := RefOf(EvaluationBytes(v))]
  {
    hide ValidChain, Missions, Context;
    var n := |Context(events, v)|;
    RecordedEvaluation(rules, events, blobs, n, v);
    assert events[..n] == Context(events, v);
  }

  lemma EvaluationIdentities(rules: Rules, events: seq<Event>, blobs: set<Digest>, v: Evaluation)
    requires ValidChain(rules, events, blobs)
    ensures forall i :: 0 <= i < |events| && events[i].id == EvaluationEvent(v.decision, v.id) ==> SameEvaluation(events[i], v)
  {
    hide Retained, Missions, Project, Continues, IsSnapshot;
    forall i | 0 <= i < |events| && events[i].id == EvaluationEvent(v.decision, v.id)
      ensures SameEvaluation(events[i], v)
    {
      assert ValidEvent(rules, events[i], events[..i], blobs);
    }
  }

  lemma ContextOfExtension(short: seq<Event>, long: seq<Event>, v: Evaluation)
    requires short <= long && |Context(short, v)| < |short|
    ensures Context(long, v) == Context(short, v)
  {
    hide Context;
    assert forall i :: 0 <= i < |short| ==> short[i] == long[i];
  }

  /** After the command succeeds, the event it submitted is the recorded one, at the place its
      context ends. */
  lemma RecordedWhere(rules: Rules, j: Journal, v: Evaluation)
    requires ValidChain(rules, j.events, j.blobs) && AppendEvaluation(rules, j, v).Some?
    ensures var n, done := |Context(j.events, v)|, AppendEvaluation(rules, j, v).value;
      && Submitted(j.events, v).Some? && n < |done.journal.events|
      && done.journal.events[n] == Submitted(j.events, v).value
      && Context(done.journal.events, v) == Context(j.events, v)
      && |done.results| == 1 && done.results[0].sequence == n + 1
  {
    hide ValidChain, Missions, Context, ValidEvent, EntryFits, Find, WellFormed, Contract;
    var n := |Context(j.events, v)|;
    var e := Submitted(j.events, v).value;
    LastMissionDecision(j.events, v);
    EvaluationIdentities(rules, j.events, j.blobs, v);
    if n < |j.events| {
      RecordedEvaluation(rules, j.events, j.blobs, n, v);
      FindUnique(rules, j.events, j.blobs, n);
    } else {
      assert forall i :: 0 <= i < |j.events| ==> !SameEvaluation(j.events[i], v);
      assert Find(j.events, e.id).None?;
      ContextOfGrown(j.events, e, v);
    }
  }

  /** Once recorded, an evaluation can be retried on any later journal: it rebuilds identical
      bytes, writes nothing and reports the same sequence number. */
  lemma EvaluationRetryIsNoOp(rules: Rules, j: Journal, later: Journal, v: Evaluation)
    requires ValidChain(rules, j.events, j.blobs) && ValidChain(rules, later.events, later.blobs)
    requires AppendEvaluation(rules, j, v).Some?
    requires AppendEvaluation(rules, j, v).value.journal.events <= later.events
    ensures |AppendEvaluation(rules, j, v).value.results| == 1
    ensures AppendEvaluation(rules, later, v)
              == Some(Appended(later, [Result(false, AppendEvaluation(rules, j, v).value.results[0].sequence)]))
  {
    RecordedWhere(rules, j, v);
    var n := |Context(j.events, v)|;
    var grown := AppendEvaluation(rules, j, v).value.journal.events;
    ContextOfExtension(grown, later.events, v);
    assert later.events[n] == grown[n];
    FindUnique(rules, later.events, later.blobs, n);
    RetryAnswer(rules, j, later, v, n);
  }

  lemma RetryAnswer(rules: Rules, j: Journal, later: Journal, v: Evaluation, n: nat)
    requires AppendEvaluation(rules, j, v).Some?
    requires Context(later.events, v) == Context(j.events, v) && n < |later.events|
    requires Submitted(j.events, v) == Some(later.events[n]) && Find(later.events, later.events[n].id) == Some(n)
    ensures AppendEvaluation(rules, later, v) == Some(Appended(later, [Result(false, n + 1)]))
  {
    hide Context, Missions, Find, ValidEvent, EntryFits, WellFormed, Contract;
    assert Submitted(later.events, v) == Submitted(j.events, v);
    assert later.blobs + {} == later.blobs;
  }

  lemma LastMissionDecision(events: seq<Event>, v: Evaluation)
    ensures Submitted(events, v).Some? ==> Submitted(events, v).value.decision == v.decision
  {
    MissionsAreIn(Context(events, v), v.decision);
    var ms := Missions(Context(events, v), v.decision);
    if ms != [] { assert ms[|ms| - 1] in ms; }
  }

  lemma ContextOfGrown(events: seq<Event>, e: Event, v: Evaluation)
    requires Context(events, v) == events && SameEvaluation(e, v)
    ensures Context(events + [e], v) == events
  {
    assert (events + [e])[..|events|] == events;
  }

  /** The event of an evaluation against the mission event it is linked to, field by field. */
  predicate Records(e: Event, v: Evaluation, original: Event) {
    var raw := Blob(EvaluationDoc(v), true, v.length);
    && e.id == EvaluationEvent(v.decision, v.id) && e.decision == v.decision && e.domain == original.domain
    && e.recordedAt == v.recordedAt && e.source == Evaluated(v.id, Sha(raw))
    && e.evidence == map[EvaluationPath(v.id) := Ref(Sha(raw), v.length)]
    && original.payload.MissionPayload? && e.payload == EvaluationPayload(v, original.payload.execution)
  }

  /** What is asked of an evaluation that is not recorded yet: an imported mission that it does not
      predate, and sizes within the bound. */
  ghost predicate Recordable(rules: Rules, j: Journal, v: Evaluation, m: nat, e: Event) {
    && IsLastMission(j.events, v.decision, m) && j.events[m].recordedAt <= v.recordedAt && Records(e, v, j.events[m])
    && v.length <= MAX_FILE_BYTES && rules.eventSize(e) <= MAX_FILE_BYTES
    && rules.entrySize(EntryAt(j.events + [e], |j.events| + 1)) <= MAX_FILE_BYTES
  }

  /** An evaluation that is not recorded yet is accepted exactly when it is recordable, and then its
      event and its own bytes are all that is added. */
  lemma EvaluationAccepted(rules: Rules, j: Journal, v: Evaluation)
    requires ValidChain(rules, j.events, j.blobs)
    requires forall e :: e in j.events ==> !SameEvaluation(e, v)
    ensures AppendEvaluation(rules, j, v).Some? <==> exists m: nat, e :: Recordable(rules, j, v, m, e)
    ensures forall m: nat, e :: Recordable(rules, j, v, m, e) ==>
              AppendEvaluation(rules, j, v)
                == Some(Appended(Journal(j.events + [e], j.blobs + {Sha(Blob(EvaluationDoc(v), true, v.length))}),
                                 [Result(true, |j.events| + 1)]))
  {
    hide ValidChain, Missions, ValidEvent, Context;
    assert Context(j.events, v) == j.events by {
      assert forall i :: 0 <= i < |j.events| ==> j.events[i] in j.events;
    }
    LastMissionIs(j.events, v.decision);
    if m: nat :| IsLastMission(j.events, v.decision, m) {
      MissionEventShape(rules, j.events, j.blobs, m);
      var e := BuildEvaluation(v, j.events[m]);
      assert Submitted(j.events, v) == Some(e);
      NewEvaluation(rules, j, v, m, e);
      forall m2: nat, e2 | Recordable(rules, j, v, m2, e2)
        ensures m2 == m && e2 == e
      {
      }
    }
  }

  lemma MissionEventShape(rules: Rules, events: seq<Event>, blobs: set<Digest>, m: nat)
    requires ValidChain(rules, events, blobs) && m < |events| && events[m].source.Mission?
    ensures events[m].payload.MissionPayload?
  {
    hide ValidSource, Retained;
    assert ValidEvent(rules, events[m], events[..m], blobs);
  }

  lemma NewEvaluation(rules: Rules, j: Journal, v: Evaluation, m: nat, e: Event)
    requires ValidChain(rules, j.events, j.blobs) && forall x :: x in j.events ==> !SameEvaluation(x, v)
    requires IsLastMission(j.events, v.decision, m) && j.events[m].payload.MissionPayload? && e == BuildEvaluation(v, j.events[m])
    ensures Records(e, v, j.events[m])
    ensures var raw := EvaluationBytes(v);
      AppendOne(rules, j, Material(e, map[ByPath(EvaluationPath(v.id)) := raw]))
        == if Recordable(rules, j, v, m, e)
           then Some(Appended(Journal(j.events + [e], j.blobs + {Sha(raw)}), [Result(true, |j.events| + 1)]))
           else None
  {
    hide ValidChain, Missions, Contract, ValidMission;
    var raw := EvaluationBytes(v);
    var evidence: map<Key, Blob> := map[ByPath(EvaluationPath(v.id)) := raw];
    assert Contract(e) by { EvaluationContract(v, j.events[m]); }
    assert Shas(e) == {Sha(raw)} by { assert EvaluationPath(v.id) in e.evidence; }
    assert Supplied(evidence) == {Sha(raw)} by { assert ByPath(EvaluationPath(v.id)) in evidence; }
    FreshEvaluation(rules, j.events, j.blobs, v, e);
    EvaluationIsValid(rules, j, v, m, e);
    hide ValidEvent, Find;
  }

  lemma EvaluationContract(v: Evaluation, original: Event)
    requires original.payload.MissionPayload? && original.decision == v.decision
    ensures Contract(BuildEvaluation(v, original))
  {
  }

  lemma FreshEvaluation(rules: Rules, events: seq<Event>, blobs: set<Digest>, v: Evaluation, e: Event)
    requires ValidChain(rules, events, blobs) && forall x :: x in events ==> !SameEvaluation(x, v)
    requires e.id == EvaluationEvent(v.decision, v.id)
    ensures Find(events, e.id).None? && forall x :: x in events ==> x.id != e.id
  {
    hide ValidChain;
    EvaluationIdentities(rules, events, blobs, v);
    forall i | 0 <= i < |events|
      ensures events[i].id != e.id
    {
      assert events[i] in events;
    }
  }

  lemma EvaluationIsValid(rules: Rules, j: Journal, v: Evaluation, m: nat, e: Event)
    requires ValidChain(rules, j.events, j.blobs) && forall x :: x in j.events ==> x.id != e.id
    requires IsLastMission(j.events, v.decision, m) && j.events[m].payload.MissionPayload? && e == BuildEvaluation(v, j.events[m])
    ensures ValidEvent(rules, e, j.events, j.blobs + {Sha(EvaluationBytes(v))}) <==> j.events[m].recordedAt <= v.recordedAt
  {
    var blobs := j.blobs + {Sha(EvaluationBytes(v))};
    EvaluationContract(v, j.events[m]);
    EventAccepted(rules, e, j.events, blobs);
    DomainIsFixed(rules, j.events, j.blobs);
    assert e.evidence[EvaluationPath(v.id)].sha == e.source.sha;
    hide ValidChain, ValidEvent, Contract, Domains;
    assert forall n: nat :: IsLastMission(j.events, v.decision, n) ==> n == m;
    assert j.events[m] in j.events;
  }

  lemma FindUnique(rules: Rules, events: seq<Event>, blobs: set<Digest>, n: nat)
    requires ValidChain(rules, events, blobs) && n < |events|
    ensures Find(events, events[n].id) == Some(n)
  {
    hide ValidChain;
    var i := Find(events, events[n].id).value;
    if i < n { IdsDiffer(rules, events, blobs, i, n); }
  }

  // ---------------------------------------------------------------- a mission whose clock goes back

  const ASKED := Blob(RequestDoc(Request("m", "r", RunMode.Live, "SPY")), true, 1)

  function Observed(revision: nat, previous: Option<Digest>, at: int): Blob {
    Blob(SnapshotDoc(Snapshot("m", "r", RunMode.Live, revision, previous, 0, at,
                              [Artifact("mission_request", RequestPath, Sha(ASKED), None)], map[], "", None, None, None)), true, 1)
  }

  const FIRST := Observed(1, None, 10)
  const SECOND := Observed(2, Some(Sha(FIRST)), 5)
  const SLOWING := History(ASKED, [FIRST, SECOND], map[RequestPath := ASKED, RevisionPath(1) := FIRST, RevisionPath(2) := SECOND])
  const REVIEWED := Evaluation("v", MissionDecision("m", "r", RunMode.Live), 7, "", 1)
  const SMALL := Rules((e: Event, before: seq<Event>) => false, (e: Event) => 1, (e: Entry) => 1)

  /** No check compares the clocks of two revisions.  A mission observed at 10 and then at 5 is exported,
      and an evaluation recorded at 7 is accepted: it predates the first revision, not the latest. */
  lemma EarlierRevisionLater()
    ensures exists j: Journal, k: nat ::
              && ValidChain(SMALL, j.events, j.blobs) && k < |j.events| && j.events[k].source.Evaluated?
              && exists i :: 0 <= i < k && j.events[i].source.Mission? && j.events[i].decision == j.events[k].decision
                   && j.events[k].recordedAt < j.events[i].recordedAt
  {
    var j := SlowingExported();
    var e := BuildEvaluation(REVIEWED, j.events[1]);
    SlowingReviewed(j, e);
    var done := AppendEvaluation(SMALL, j, REVIEWED).value.journal;
    assert done.events[2] == e && done.events[0] == j.events[0];
    assert e.source.Evaluated? && e.recordedAt == 7 && e.decision == REVIEWED.decision;
    hide ValidChain, AppendEvaluation;
    assert ValidChain(SMALL, done.events, done.blobs) && 2 < |done.events|;
  }

  /** Two mission events of one decision, observed at 10 and at 5. */
  ghost predicate TwoRevisions(events: seq<Event>) {
    && |events| == 2 && events[0].recordedAt == 10 && events[1].recordedAt == 5
    && (forall i :: 0 <= i < 2 ==> events[i].source.Mission? && events[i].payload.MissionPayload?)
    && (forall i :: 0 <= i < 2 ==> events[i].decision == REVIEWED.decision)
  }

  lemma SlowingExported() returns (j: Journal)
    ensures ValidChain(SMALL, j.events, j.blobs) && TwoRevisions(j.events)
  {
    SlowingIsVerified();
    SlowingProjected();
    hide Project, VerifiedHistory, ValidChain, Export, TwoRevisions, SLOWING, DecisionOf;
    var empty := Journal([], {});
    var events := Project(SLOWING, Trading, Some("x")).value;
    assert ValidChain(SMALL, empty.events, empty.blobs) by { NothingIsValid(); }
    NothingHeld(DecisionOf(SLOWING), events);
    ExportWritesNewRevisions(SMALL, empty, SLOWING, Trading, Some("x"), 0);
    ExportedMissions(SMALL, empty, SLOWING, Trading, Some("x"));
    j := Export(SMALL, empty, SLOWING, Trading, Some("x")).value.journal;
    assert j.events == events;
  }

  lemma NothingIsValid()
    ensures ValidChain(SMALL, [], {})
  {
  }

  lemma NothingHeld(d: DecisionId, events: seq<Event>)
    ensures Missions([], d) == events[..0] == [] && OneDomain([], d, Trading) && events[0..] == events
    ensures Fits(SMALL, [], events, 0)
  {
  }

  lemma SlowingReviewed(j: Journal, e: Event)
    requires ValidChain(SMALL, j.events, j.blobs) && TwoRevisions(j.events)
    requires e == BuildEvaluation(REVIEWED, j.events[1])
    ensures AppendEvaluation(SMALL, j, REVIEWED).Some?
    ensures AppendEvaluation(SMALL, j, REVIEWED).value.journal.events == j.events + [e]
    ensures var done := AppendEvaluation(SMALL, j, REVIEWED).value.journal; ValidChain(SMALL, done.events, done.blobs)
  {
    hide ValidChain, AppendEvaluation;
    assert IsLastMission(j.events, REVIEWED.decision, 1);
    assert Recordable(SMALL, j, REVIEWED, 1, e);
    EvaluationAccepted(SMALL, j, REVIEWED);
    ValidAfterEvaluation(SMALL, j, REVIEWED);
  }

  lemma SlowingIsVerified()
    ensures VerifiedHistory(SLOWING)
  {
    assert RevisionVerified(SLOWING, 0);
    assert RevisionVerified(SLOWING, 1);
  }

  lemma SlowingProjected()
    ensures Project(SLOWING, Trading, Some("x")).Some? && TwoRevisions(Project(SLOWING, Trading, Some("x")).value)
  {
    PlainRevision(SLOWING.files, 1, None, 10);
    PlainRevision(SLOWING.files, 2, Some(Sha(FIRST)), 5);
    hide ProjectOne;
    assert SLOWING.snapshots[0] == FIRST && SLOWING.snapshots[1] == SECOND;
    assert ProjectFrom(SLOWING, 2, Trading, "x") == Some([]);
    assert ProjectFrom(SLOWING, 1, Trading, "x").Some?;
    assert ProjectFrom(SLOWING, 0, Trading, "x").Some?;
    assert Classified(Trading, Some("x"));
  }

  lemma PlainRevision(files: map<Path, Blob>, revision: nat, previous: Option<Digest>, at: int)
    requires revision >= 1 && RequestPath in files && files[RequestPath] == ASKED
    requires RevisionPath(revision) in files && files[RevisionPath(revision)] == Observed(revision, previous, at)
    ensures var e := ProjectOne(ASKED, Observed(revision, previous, at), files, Trading, "x");
      && e.Some? && e.value.recordedAt == at && e.value.source.Mission? && e.value.decision == REVIEWED.decision
      && e.value.payload.MissionPayload?
  {
    var s := Observed(revision, previous, at).document.snapshot;
    assert Captured(ASKED, s, Observed(revision, previous, at), files);
    assert s.artifacts == [s.artifacts[0]];
    NotNamed(s.artifacts[0], "governor_decision");
    NotNamed(s.artifacts[0], "operator_action");
    NotNamed(s.artifacts[0], "navigator_shadow_plan");
  }

  lemma NotNamed(a: Artifact, name: string)
    requires |a.name| > 0 && a.name[0] == 'm' && |name| > 0 && name[0] != 'm'
    ensures Named([a], name).None?
  {
    assert [a][1..] == [];
  }

  lemma ValidAfterEvaluation(rules: Rules, j: Journal, v: Evaluation)
    requires ValidChain(rules, j.events, j.blobs) && AppendEvaluation(rules, j, v).Some?
    ensures var done := AppendEvaluation(rules, j, v).value.journal; ValidChain(rules, done.events, done.blobs)
  {
    hide ValidChain, Missions, Context;
    var e := Submitted(j.events, v).value;
    var m := Material(e, map[ByPath(EvaluationPath(v.id)) := EvaluationBytes(v)]);
    AppendOneIsStep(rules, j, m, j.blobs + Supplied(m.evidence));
  }
}
