/** What the journal's verifier accepts, event by event, and what therefore holds of every
    scanned chain. */
module JournalChain {
  import opened Options
  import opened JournalTypes
  import opened JournalProjection

  /** The parts of the verifier that live in other files: the validators of the governed event
      kinds, which see the event and the chain before it (retained bytes are named by their own
      digests, so an event already says what they contain), and the lengths of canonical bytes. */
  datatype Rules = Rules(other: (Event, seq<Event>) -> bool, eventSize: Event -> nat, entrySize: Entry -> nat)

  /** A predecessor hash stands for the entry it is the SHA-256 of. */
  datatype Seal = Seal(entry: Entry)

  datatype Entry = Entry(sequence: nat, previous: Option<Seal>, event: Event)

  /** The imported mission events of one decision, in chain order. */
  function Missions(events: seq<Event>, d: DecisionId): seq<Event> {
    if events == [] then []
    else
      var last := events[|events| - 1];
      Missions(events[..|events| - 1], d) + (if last.decision == d && last.source.Mission? then [last] else [])
  }

  function SnapshotOf(e: Event): Snapshot
    requires e.source.sha.blob.document.SnapshotDoc?
  {
    e.source.sha.blob.document.snapshot
  }

  predicate Retained(e: Event, blobs: set<Digest>) {
    forall p :: p in e.evidence ==> e.evidence[p].sha in blobs && e.evidence[p].sha.blob.size == e.evidence[p].size
  }

  /** What is asked of consecutive revisions of one mission. */
  predicate Continues(prior: Snapshot, next: Snapshot) {
    && next.startedAt == prior.startedAt
    && (forall a :: a in prior.artifacts ==> a in next.artifacts)
    && (forall name :: name in prior.components ==>
          name in next.components && next.components[name] == prior.components[name])
  }

  /** The MISSION branch of `_validate_event`. */
  predicate ValidMission(e: Event, before: seq<Event>)
    requires e.source.Mission?
  {
    var src := e.source;
    var missions := Missions(before, e.decision);
    && e.decision == MissionDecision(src.mission, src.request, src.mode)
    && e.id == MissionEvent(e.decision, src.revision)
    && RevisionPath(src.revision) in e.evidence && e.evidence[RevisionPath(src.revision)].sha == src.sha
    && IsSnapshot(src.sha.blob)
    && var s := SnapshotOf(e);
    && s.mission == src.mission && s.request == src.request && s.mode == src.mode && s.revision == src.revision
    && (if missions == [] then src.revision == 1 && s.previous == None
        else
          var last := missions[|missions| - 1];
          && last.source.Mission? && last.source.sha.blob.document.SnapshotDoc?
          && src.revision == last.source.revision + 1
          && s.previous == Some(last.source.sha)
          && Continues(SnapshotOf(last), s))
    && (forall a :: a in s.artifacts ==> a.path in e.evidence && e.evidence[a.path].sha == a.sha)
    && RequestPath in e.evidence && e.payload.MissionPayload?
    && Project(History(FilesOf(e)[RequestPath], [src.sha.blob], FilesOf(e)), e.domain, Some(e.payload.reason)) == Some([e])
  }

  /** The EVALUATION branch. */
  predicate ValidEvaluation(e: Event, before: seq<Event>)
    requires e.source.Evaluated?
  {
    var missions := Missions(before, e.decision);
    && missions != [] && e.payload.EvaluationPayload?
    && var last := missions[|missions| - 1];
    && last.payload.MissionPayload? && e.payload.status == last.payload.execution
    && e.recordedAt >= last.recordedAt
    && e.source.sha == Sha(EvaluationBytes(e.payload.evaluation))
    && e.id == EvaluationEvent(e.decision, e.source.evaluation)
  }

  /** The CAPITAL_POLICY branch. */
  predicate ValidPolicy(e: Event)
    requires e.source.CapitalPolicy?
  {
    && e.payload.PolicyPayload? && e.source.sha == Sha(PolicyBytes(e.payload.policy))
    && e.decision == PolicyDecision(e.source.policy) && e.id == PolicyEvent(e.decision)
  }

  predicate ValidSource(rules: Rules, e: Event, before: seq<Event>) {
    match e.source
    case Mission(_, _, _, _, _) => ValidMission(e, before)
    case Evaluated(_, _) => ValidEvaluation(e, before)
    case CapitalPolicy(_, _) => ValidPolicy(e)
    case Governed(_, _) => rules.other(e, before)
  }

  /** `JournalStore._validate_event` on an event that meets its contract. */
  predicate ValidEvent(rules: Rules, e: Event, before: seq<Event>, blobs: set<Digest>) {
    && Contract(e) && Retained(e, blobs) && e.source.sha in Shas(e)
    && (forall i :: 0 <= i < |before| ==> before[i].decision == e.decision ==> before[i].domain == e.domain)
    && (forall i :: 0 <= i < |before| ==> before[i].id != e.id)
    && ValidSource(rules, e, before)
  }

  ghost predicate ValidChain(rules: Rules, events: seq<Event>, blobs: set<Digest>) {
    forall i :: 0 <= i < |events| ==> ValidEvent(rules, events[i], events[..i], blobs)
  }

  // ---------------------------------------------------------------- entries

  /** The entry that holds the n-th event of a chain. */
  function EntryAt(events: seq<Event>, n: nat): Entry
    requires 0 < n <= |events|
    decreases n, 0
  {
    Entry(n, SealAt(events, n - 1), events[n - 1])
  }

  function SealAt(events: seq<Event>, n: nat): Option<Seal>
    requires n <= |events|
    decreases n, 1
  {
    if n == 0 then None else Some(Seal(EntryAt(events, n)))
  }

  lemma {:induction false} EntryOfPrefix(events: seq<Event>, longer: seq<Event>, n: nat)
    requires events <= longer && n <= |events|
    ensures SealAt(events, n) == SealAt(longer, n)
    ensures n > 0 ==> EntryAt(events, n) == EntryAt(longer, n)
  {
    if n > 0 { EntryOfPrefix(events, longer, n - 1); }
  }

  /** A final predecessor hash fixes every event before it. */
  lemma {:induction false} SealFixesHistory(a: seq<Event>, b: seq<Event>)
    requires SealAt(a, |a|) == SealAt(b, |b|)
    ensures a == b
  {
    if a != [] && b != [] {
      var n := |a| - 1;
      EntryOfPrefix(a[..n], a, n);
      EntryOfPrefix(b[..n], b, n);
      assert EntryAt(a, |a|) == EntryAt(b, |b|);
      SealFixesHistory(a[..n], b[..n]);
      assert a == a[..n] + [a[n]] && b == b[..n] + [b[n]];
    }
  }

  // ---------------------------------------------------------------- growing a chain

  lemma ValidWithMore(rules: Rules, e: Event, before: seq<Event>, blobs: set<Digest>, more: set<Digest>)
    requires ValidEvent(rules, e, before, blobs) && blobs <= more
    ensures ValidEvent(rules, e, before, more)
  {
    hide ValidSource, Contract;
  }

  lemma ChainWithMore(rules: Rules, events: seq<Event>, blobs: set<Digest>, more: set<Digest>)
    requires ValidChain(rules, events, blobs) && blobs <= more
    ensures ValidChain(rules, events, more)
  {
    hide ValidEvent;
    forall i | 0 <= i < |events|
      ensures ValidEvent(rules, events[i], events[..i], more)
    {
      ValidWithMore(rules, events[i], events[..i], blobs, more);
    }
  }

  lemma ChainGrows(rules: Rules, events: seq<Event>, e: Event, blobs: set<Digest>)
    requires ValidChain(rules, events, blobs) && ValidEvent(rules, e, events, blobs)
    ensures ValidChain(rules, events + [e], blobs)
  {
    hide ValidEvent;
    var longer := events + [e];
    forall i | 0 <= i < |longer|
      ensures ValidEvent(rules, longer[i], longer[..i], blobs)
    {
      assert longer[..i] == if i < |events| then events[..i] else events;
    }
  }

  lemma ChainPrefix(rules: Rules, events: seq<Event>, n: nat, blobs: set<Digest>)
    requires ValidChain(rules, events, blobs) && n <= |events|
    ensures ValidChain(rules, events[..n], blobs)
  {
    hide ValidEvent;
    forall i | 0 <= i < n
      ensures ValidEvent(rules, events[..n][i], events[..n][..i], blobs)
    {
      assert events[..n][..i] == events[..i];
    }
  }

  // ---------------------------------------------------------------- what every scanned journal satisfies

  lemma EvidenceIsRetained(rules: Rules, events: seq<Event>, blobs: set<Digest>, k: nat)
    requires ValidChain(rules, events, blobs) && k < |events|
    ensures Shas(events[k]) <= blobs && Retained(events[k], blobs)
  {
    hide ValidSource, Contract;
    assert ValidEvent(rules, events[k], events[..k], blobs);
  }

  lemma IdsDiffer(rules: Rules, events: seq<Event>, blobs: set<Digest>, i: nat, j: nat)
    requires ValidChain(rules, events, blobs) && i < j < |events|
    ensures events[i].id != events[j].id
  {
    hide ValidSource, Contract, Retained;
    assert ValidEvent(rules, events[j], events[..j], blobs);
    assert events[..j][i] == events[i];
  }

  /** The domain last recorded for each decision. */
  function Domains(events: seq<Event>): map<DecisionId, Domain> {
    if events == [] then map[]
    else
      var last := events[|events| - 1];
      Domains(events[..|events| - 1])[last.decision := last.domain]
  }

  /** Domain is a function of decision id over the whole chain, defined on exactly its decisions. */
  lemma {:induction false} DomainIsFixed(rules: Rules, events: seq<Event>, blobs: set<Digest>)
    requires ValidChain(rules, events, blobs)
    ensures forall e :: e in events ==> e.decision in Domains(events) && Domains(events)[e.decision] == e.domain
    ensures forall d :: d in Domains(events) ==> exists e :: e in events && e.decision == d
  {
    hide ValidSource, Contract, Retained;
    if events != [] {
      var n := |events| - 1;
      ChainPrefix(rules, events, n, blobs);
      DomainIsFixed(rules, events[..n], blobs);
      assert ValidEvent(rules, events[n], events[..n], blobs);
      assert events == events[..n] + [events[n]];
    }
  }

  /** Whatever a scanned journal lists of a mission reports what that revision's own retained
      snapshot recorded, and nothing more. */
  lemma MissionsAreReported(rules: Rules, events: seq<Event>, blobs: set<Digest>, k: nat)
    requires ValidChain(rules, events, blobs) && k < |events| && events[k].source.Mission?
    ensures events[k].source.sha in blobs && IsSnapshot(events[k].source.sha.blob)
    ensures RequestPath in FilesOf(events[k]) && FilesOf(events[k])[RequestPath].document.RequestDoc?
    ensures forall a :: a in SnapshotOf(events[k]).artifacts ==> a.path in FilesOf(events[k])
    ensures Reports(events[k], FilesOf(events[k])[RequestPath].document.request, SnapshotOf(events[k]), FilesOf(events[k]))
  {
    var e := events[k];
    assert ValidEvent(rules, e, events[..k], blobs) && ValidMission(e, events[..k]);
    EvidenceIsRetained(rules, events, blobs, k);
    hide ValidChain, ValidEvent, ProjectOne, Reports, FilesOf, Contract, Retained, Missions, Continues;
    var request := FilesOf(e)[RequestPath];
    var h := History(request, [e.source.sha.blob], FilesOf(e));
    ProjectedAt(h, 0, e.domain, e.payload.reason, 0);
    ProjectedIff(request, e.source.sha.blob, FilesOf(e), e.domain, e.payload.reason);
  }

  /** Event m is the latest imported revision of a mission decision. */
  predicate IsLastMission(events: seq<Event>, d: DecisionId, m: nat) {
    && m < |events| && events[m].decision == d && events[m].source.Mission?
    && forall i :: m < i < |events| ==> !(events[i].decision == d && events[i].source.Mission?)
  }

  lemma {:induction false} LastMissionIs(events: seq<Event>, d: DecisionId)
    ensures Missions(events, d) == [] ==> forall m: nat :: !IsLastMission(events, d, m)
    ensures Missions(events, d) != [] ==>
              forall m: nat :: IsLastMission(events, d, m) ==> events[m] == Missions(events, d)[|Missions(events, d)| - 1]
    ensures Missions(events, d) != [] ==> exists m: nat :: IsLastMission(events, d, m)
  {
    if events != [] {
      var n := |events| - 1;
      LastMissionIs(events[..n], d);
      if events[n].decision == d && events[n].source.Mission? {
        assert IsLastMission(events, d, n);
      } else {
        forall m: nat
          ensures IsLastMission(events, d, m) <==> IsLastMission(events[..n], d, m)
        {
        }
      }
    }
  }

  /** Every recorded evaluation follows an imported mission, carries its latest execution status under
      its own identity and bytes, and does not predate that latest revision; so it predates no earlier
      revision either, unless a later revision's clock went back. */
  lemma EvaluationsFollowMissions(rules: Rules, events: seq<Event>, blobs: set<Digest>, k: nat)
    requires ValidChain(rules, events, blobs) && k < |events| && events[k].source.Evaluated?
    ensures exists m: nat :: IsLastMission(events[..k], events[k].decision, m)
              && events[m].recordedAt <= events[k].recordedAt && events[m].domain == events[k].domain
              && events[m].payload.MissionPayload? && events[k].payload.EvaluationPayload?
              && events[k].payload.status == events[m].payload.execution
              && forall i :: 0 <= i < k && events[i].recordedAt <= events[m].recordedAt ==> events[i].recordedAt <= events[k].recordedAt
    ensures events[k].payload.EvaluationPayload?
    ensures var v := events[k].payload.evaluation;
      && v.decision == events[k].decision && v.recordedAt == events[k].recordedAt
      && events[k].source == Evaluated(v.id, Sha(Blob(EvaluationDoc(v), true, v.length)))
      && events[k].id == EvaluationEvent(v.decision, v.id)
  {
    hide ValidChain, ValidMission, Missions, Retained;
    EventIsValid(rules, events, blobs, k);
    EventAccepted(rules, events[k], events[..k], blobs);
    var m: nat :| IsLastMission(events[..k], events[k].decision, m) && events[..k][m].payload.MissionPayload?
      && events[k].payload.status == events[..k][m].payload.execution && events[..k][m].recordedAt <= events[k].recordedAt;
    assert events[..k][m] == events[m] && events[m] in events[..k];
  }

  lemma EventIsValid(rules: Rules, events: seq<Event>, blobs: set<Digest>, k: nat)
    requires ValidChain(rules, events, blobs) && k < |events|
    ensures ValidEvent(rules, events[k], events[..k], blobs)
  {
    hide ValidEvent;
  }

  /** A recorded capital policy is what its own retained bytes propose, under its own identity, and is
      the only event of that policy. */
  lemma PoliciesAreTheirBytes(rules: Rules, events: seq<Event>, blobs: set<Digest>, k: nat)
    requires ValidChain(rules, events, blobs) && k < |events| && events[k].source.CapitalPolicy?
    ensures events[k].payload.PolicyPayload? && events[k].domain == CapitalAllocation
    ensures var p := events[k].payload.policy;
      && events[k].source == CapitalPolicy(p.id, Sha(Blob(PolicyDoc(p), true, p.length))) && events[k].source.sha in blobs
      && events[k].recordedAt == p.proposedAt
      && events[k].decision == PolicyDecision(p.id) && events[k].id == PolicyEvent(PolicyDecision(p.id))
      && forall i :: 0 <= i < |events| && i != k ==> events[i].id != PolicyEvent(PolicyDecision(p.id))
  {
    assert ValidEvent(rules, events[k], events[..k], blobs);
    hide Retained;
    assert events[k].source.sha in blobs by { EvidenceIsRetained(rules, events, blobs, k); }
    forall i | 0 <= i < |events| && i != k
      ensures events[i].id != events[k].id
    {
      if i < k { IdsDiffer(rules, events, blobs, i, k); } else { IdsDiffer(rules, events, blobs, k, i); }
    }
  }

  /** When a new event is accepted, kind by kind: its contract, its evidence, one domain a decision,
      a new identity, and what its kind asks of the chain before it. */
  lemma EventAccepted(rules: Rules, e: Event, before: seq<Event>, blobs: set<Digest>)
    ensures ValidEvent(rules, e, before, blobs) <==>
              && Contract(e)
              && (forall p :: p in e.evidence ==> e.evidence[p].sha in blobs && e.evidence[p].sha.blob.size == e.evidence[p].size)
              && (exists p :: p in e.evidence && e.evidence[p].sha == e.source.sha)
              && (forall b :: b in before ==> b.id != e.id && (b.decision == e.decision ==> b.domain == e.domain))
              && match e.source
                 case Mission(_, _, _, _, _) => ValidMission(e, before)
                 case Evaluated(id, _) =>
                   && e.id == EvaluationEvent(e.decision, id)
                   && exists m: nat :: IsLastMission(before, e.decision, m)
                        && before[m].payload.MissionPayload? && e.payload.status == before[m].payload.execution
                        && before[m].recordedAt <= e.recordedAt
                 case CapitalPolicy(id, _) => e.decision == PolicyDecision(id) && e.id == PolicyEvent(e.decision)
                 case Governed(_, _) => rules.other(e, before)
  {
    hide ValidMission, Missions;
    LastMissionIs(before, e.decision);
    assert forall b :: b in before <==> exists i :: 0 <= i < |before| && before[i] == b;
    assert e.source.sha in Shas(e) <==> exists p :: p in e.evidence && e.evidence[p].sha == e.source.sha;
  }

  /** What the verifier knows about one mission event and the missions before it. */
  ghost predicate Follows(m: Event, before: seq<Event>) {
    && m.source.Mission? && m.payload.MissionPayload? && IsSnapshot(m.source.sha.blob)
    && SnapshotOf(m).revision == m.source.revision == |before| + 1
    && (forall a :: a in SnapshotOf(m).artifacts ==> a.path in m.evidence && m.evidence[a.path].sha == a.sha)
    && (if before == [] then SnapshotOf(m).previous == None
        else
          var last := before[|before| - 1];
          && last.source.Mission? && last.source.sha.blob.document.SnapshotDoc?
          && SnapshotOf(m).previous == Some(last.source.sha)
          && Continues(SnapshotOf(last), SnapshotOf(m)))
  }

  lemma FollowsLast(rules: Rules, e: Event, before: seq<Event>, blobs: set<Digest>)
    requires ValidEvent(rules, e, before, blobs) && e.source.Mission?
    requires Missions(before, e.decision) != [] ==>
               var ms := Missions(before, e.decision);
               ms[|ms| - 1].source.Mission? && ms[|ms| - 1].source.revision == |ms|
    ensures Follows(e, Missions(before, e.decision))
  {
    hide Project, FilesOf, Missions, Retained, Continues;
    assert ValidMission(e, before);
  }

  /** Each mission's events form one contiguous hash chain from revision 1. */
  lemma {:induction false} MissionChain(rules: Rules, events: seq<Event>, blobs: set<Digest>, d: DecisionId)
    requires ValidChain(rules, events, blobs)
    ensures forall k :: 0 <= k < |Missions(events, d)| ==>
              Missions(events, d)[k].decision == d && Follows(Missions(events, d)[k], Missions(events, d)[..k])
  {
    hide ValidEvent, Follows;
    if events != [] {
      var n := |events| - 1;
      ChainPrefix(rules, events, n, blobs);
      MissionChain(rules, events[..n], blobs, d);
      var ms, all := Missions(events[..n], d), Missions(events, d);
      assert ValidEvent(rules, events[n], events[..n], blobs);
      if events[n].decision == d && events[n].source.Mission? {
        assert ms != [] ==> Follows(ms[|ms| - 1], ms[..|ms| - 1]);
        LastRevision(ms);
        FollowsLast(rules, events[n], events[..n], blobs);
        forall k | 0 <= k < |all|
          ensures all[k].decision == d && Follows(all[k], all[..k])
        {
          assert all[..k] == if k < |ms| then ms[..k] else ms;
        }
      } else {
        assert all == ms;
      }
    }
  }

  lemma LastRevision(ms: seq<Event>)
    requires ms != [] ==> Follows(ms[|ms| - 1], ms[..|ms| - 1])
    ensures ms != [] ==> ms[|ms| - 1].source.Mission? && ms[|ms| - 1].source.revision == |ms|
  {
  }

  /** An artifact or component recorded by revision i is unchanged in every revision j >= i. */
  lemma {:induction false} ProvenanceIsStable(rules: Rules, events: seq<Event>, blobs: set<Digest>, d: DecisionId, i: nat, j: nat)
    requires ValidChain(rules, events, blobs) && i <= j < |Missions(events, d)|
    ensures var ms := Missions(events, d);
      && ms[i].source.Mission? && ms[j].source.Mission?
      && IsSnapshot(ms[i].source.sha.blob) && IsSnapshot(ms[j].source.sha.blob)
      && SnapshotOf(ms[j]).startedAt == SnapshotOf(ms[i]).startedAt
      && (forall name :: name in SnapshotOf(ms[i]).components ==>
            name in SnapshotOf(ms[j]).components && SnapshotOf(ms[j]).components[name] == SnapshotOf(ms[i]).components[name])
      && (forall a :: a in SnapshotOf(ms[i]).artifacts ==>
            a in SnapshotOf(ms[j]).artifacts && a.path in ms[j].evidence && ms[j].evidence[a.path].sha == a.sha)
    decreases j
  {
    hide ValidEvent, Missions, ValidChain, Follows;
    MissionChain(rules, events, blobs, d);
    var ms := Missions(events, d);
    assert Follows(ms[j], ms[..j]);
    FollowsNeighbour(ms, j);
    if i < j {
      ProvenanceIsStable(rules, events, blobs, d, i, j - 1);
      ContinuesOn(SnapshotOf(ms[i]), SnapshotOf(ms[j - 1]), SnapshotOf(ms[j]));
    } else {
      ContinuesItself(SnapshotOf(ms[j]));
    }
    ContinuesHolds(SnapshotOf(ms[i]), SnapshotOf(ms[j]));
  }

  lemma FollowsNeighbour(ms: seq<Event>, j: nat)
    requires j < |ms| && Follows(ms[j], ms[..j])
    ensures ms[j].source.Mission? && IsSnapshot(ms[j].source.sha.blob)
    ensures forall a :: a in SnapshotOf(ms[j]).artifacts ==> a.path in ms[j].evidence && ms[j].evidence[a.path].sha == a.sha
    ensures j > 0 && ms[j - 1].source.Mission? && IsSnapshot(ms[j - 1].source.sha.blob) ==>
              Continues(SnapshotOf(ms[j - 1]), SnapshotOf(ms[j]))
  {
  }

  lemma ContinuesOn(a: Snapshot, b: Snapshot, c: Snapshot)
    requires Continues(a, b) && Continues(b, c)
    ensures Continues(a, c)
  {
  }

  lemma ContinuesItself(a: Snapshot)
    ensures Continues(a, a)
  {
  }

  lemma ContinuesHolds(a: Snapshot, b: Snapshot)
    requires Continues(a, b)
    ensures forall x :: x in a.artifacts ==> x in b.artifacts
  {
  }

  /** The revision hash chain, read off two neighbours. */
  lemma RevisionsAreHashed(rules: Rules, events: seq<Event>, blobs: set<Digest>, d: DecisionId, k: nat)
    requires ValidChain(rules, events, blobs) && k < |Missions(events, d)|
    ensures var ms := Missions(events, d);
      && ms[k].source.Mission? && IsSnapshot(ms[k].source.sha.blob)
      && ms[k].source.revision == k + 1
      && SnapshotOf(ms[k]).previous == if k == 0 then None else Some(ms[k - 1].source.sha)
  {
    hide ValidEvent, Missions, ValidChain, IsSnapshot, Continues;
    MissionChain(rules, events, blobs, d);
    assert Follows(Missions(events, d)[k], Missions(events, d)[..k]);
  }

  // ---------------------------------------------------------------- missions of longer chains

  lemma {:induction false} MissionsAreIn(events: seq<Event>, d: DecisionId)
    ensures forall m :: m in Missions(events, d) <==> m in events && m.decision == d && m.source.Mission?
  {
    if events != [] {
      MissionsAreIn(events[..|events| - 1], d);
      assert events == events[..|events| - 1] + [events[|events| - 1]];
    }
  }

  lemma MissionsOfAppend(events: seq<Event>, e: Event, d: DecisionId)
    ensures Missions(events + [e], d) == Missions(events, d) + (if e.decision == d && e.source.Mission? then [e] else [])
  {
    assert (events + [e])[..|events|] == events;
  }
}
