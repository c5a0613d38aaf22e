/** Appending to a verified journal, one event at a time and in batches, as functions of what
    a scan returns: the batch writer refines the single writer, and retries converge. */
module JournalAppend {
  import opened Options
  import opened JournalTypes
  import opened JournalProjection
  import opened JournalChain

  const MAX_BATCH_EVENTS := 4096
  const MAX_BATCH_SUPPLIED_BYTES := 768 * 1024 * 1024

  /** What a scan returns: the chain, and the digests of all retained evidence, orphans included. */
  datatype Journal = Journal(events: seq<Event>, blobs: set<Digest>)

  /** Evidence is supplied under its digest or under a relative path. */
  datatype Key = ByDigest(sha: Digest) | ByPath(path: Path)

  datatype Material = Material(event: Event, evidence: map<Key, Blob>)

  datatype Result = Result(written: bool, sequence: nat)

  datatype Stepped = Stepped(events: seq<Event>, result: Result)

  datatype Appended = Appended(journal: Journal, results: seq<Result>)

  function Supplied(evidence: map<Key, Blob>): set<Digest> {
    set k | k in evidence :: Sha(evidence[k])
  }

  predicate GoodKey(e: Event, key: Key, raw: Blob) {
    && raw.size <= MAX_FILE_BYTES
    && match key
       case ByDigest(sha) => sha == Sha(raw)
       case ByPath(path) => path in e.evidence ==> e.evidence[path].sha == Sha(raw)
  }

  /** The checks made on one material before the journal is looked at. */
  predicate WellFormed(rules: Rules, m: Material) {
    && Contract(m.event) && rules.eventSize(m.event) <= MAX_FILE_BYTES
    && forall k :: k in m.evidence ==> GoodKey(m.event, k, m.evidence[k])
  }

  /** The first index of an event with that identity. */
  function Find(events: seq<Event>, id: EventId): (r: Option<nat>)
    ensures r.None? <==> forall i :: 0 <= i < |events| ==> events[i].id != id
    ensures r.Some? ==> r.value < |events| && events[r.value].id == id
    ensures r.Some? ==> forall i :: 0 <= i < r.value ==> events[i].id != id
  {
    if events == [] then None
    else
      var n := |events| - 1;
      var earlier := Find(events[..n], id);
      if earlier.Some? then earlier
      else if events[n].id == id then Some(n)
      else None
  }

  predicate EntryFits(rules: Rules, events: seq<Event>)
    requires events != []
  {
    rules.entrySize(EntryAt(events, |events|)) <= MAX_FILE_BYTES
  }

  /** One event against a chain: an exact retry, a conflict, or a validated extension. */
  function Step(rules: Rules, events: seq<Event>, e: Event, candidates: set<Digest>): Option<Stepped> {
    match Find(events, e.id)
    case Some(i) =>
      if events[i] == e then Some(Stepped(events, Result(false, i + 1))) else None
    case None =>
      if ValidEvent(rules, e, events, candidates) && EntryFits(rules, events + [e])
      then Some(Stepped(events + [e], Result(true, |events| + 1)))
      else None
  }

  /** `JournalStore.append`. */
  function AppendOne(rules: Rules, j: Journal, m: Material): Option<Appended> {
    if !WellFormed(rules, m) then None
    else
      var next := Step(rules, j.events, m.event, j.blobs + Supplied(m.evidence));
      if next.None? then None
      else Some(Appended(Journal(next.value.events, j.blobs + if next.value.result.written then Shas(m.event) else {}),
                         [next.value.result]))
  }

  /** Appending materials one by one; the first refusal refuses all. */
  function AppendAll(rules: Rules, j: Journal, ms: seq<Material>): Option<Appended> {
    if ms == [] then Some(Appended(j, []))
    else
      var n := |ms| - 1;
      var done := AppendAll(rules, j, ms[..n]);
      if done.None? then None
      else
        var next := AppendOne(rules, done.value.journal, ms[n]);
        if next.None? then None
        else Some(Appended(next.value.journal, done.value.results + next.value.results))
  }

  function AllSupplied(ms: seq<Material>): set<Digest> {
    if ms == [] then {} else AllSupplied(ms[..|ms| - 1]) + Supplied(ms[|ms| - 1].evidence)
  }

  function AllShas(events: seq<Event>): set<Digest> {
    if events == [] then {} else AllShas(events[..|events| - 1]) + Shas(events[|events| - 1])
  }

  /** Total length of a set of distinct blobs. */
  ghost function Bytes(s: set<Digest>): nat {
    if s == {} then 0 else var d :| d in s; d.blob.size + Bytes(s - {d})
  }

  ghost predicate Admitted(rules: Rules, ms: seq<Material>) {
    && 1 <= |ms| <= MAX_BATCH_EVENTS
    && (forall i, k :: 0 <= i < k < |ms| ==> ms[i].event.id != ms[k].event.id)
    && (forall i :: 0 <= i < |ms| ==> WellFormed(rules, ms[i]))
    && Bytes(AllSupplied(ms)) <= MAX_BATCH_SUPPLIED_BYTES
  }

  datatype Planned = Planned(events: seq<Event>, results: seq<Result>)

  /** The validation loop of the batch: every event against the candidate prefix before it. */
  function Plan(rules: Rules, events: seq<Event>, ms: seq<Material>, candidates: set<Digest>): Option<Planned> {
    if ms == [] then Some(Planned(events, []))
    else
      var n := |ms| - 1;
      var done := Plan(rules, events, ms[..n], candidates);
      if done.None? then None
      else
        var next := Step(rules, done.value.events, ms[n].event, candidates);
        if next.None? then None
        else Some(Planned(next.value.events, done.value.results + [next.value.result]))
  }

  /** `append_journal_batch`. */
  ghost function Batch(rules: Rules, j: Journal, ms: seq<Material>): Option<Appended> {
    if !Admitted(rules, ms) then None
    else
      var plan := Plan(rules, j.events, ms, j.blobs + AllSupplied(ms));
      if plan.None? then None
      else
        PlanExtends(rules, j.events, ms, j.blobs + AllSupplied(ms));
        Some(Appended(Journal(plan.value.events, j.blobs + AllShas(plan.value.events[|j.events|..])), plan.value.results))
  }

  // ---------------------------------------------------------------- plans

  lemma {:induction false} PlanExtends(rules: Rules, events: seq<Event>, ms: seq<Material>, candidates: set<Digest>)
    ensures Plan(rules, events, ms, candidates).Some? ==>
              && events <= Plan(rules, events, ms, candidates).value.events
              && |Plan(rules, events, ms, candidates).value.results| == |ms|
  {
    hide ValidEvent, EntryFits;
    if ms != [] { PlanExtends(rules, events, ms[..|ms| - 1], candidates); }
  }

  /** A plan that fails on a prefix fails. */
  lemma {:induction false} PlanFails(rules: Rules, events: seq<Event>, ms: seq<Material>, candidates: set<Digest>, i: nat)
    requires i <= |ms| && Plan(rules, events, ms[..i], candidates).None?
    ensures Plan(rules, events, ms, candidates).None?
  {
    hide Step;
    var n := |ms| - 1;
    if i < |ms| {
      assert ms[..n][..i] == ms[..i];
      PlanFails(rules, events, ms[..n], candidates, i);
    } else {
      assert ms[..i] == ms;
    }
  }

  lemma {:induction false} AllShasOfAppend(events: seq<Event>, e: Event)
    ensures AllShas(events + [e]) == AllShas(events) + Shas(e)
  {
    assert (events + [e])[..|events|] == events;
  }

  /** When an append is answered at all: the event meets its contract and size, each supplied file is
      bounded and is what its key says, and the event is either the recorded one or a valid extension
      whose entry fits. */
  lemma AppendAccepted(rules: Rules, j: Journal, m: Material)
    requires ValidChain(rules, j.events, j.blobs)
    ensures AppendOne(rules, j, m).Some? <==>
              && Contract(m.event) && rules.eventSize(m.event) <= 67108864
              && (forall k :: k in m.evidence ==>
                    && m.evidence[k].size <= 67108864
                    && (k.ByDigest? ==> k.sha == Sha(m.evidence[k]))
                    && (k.ByPath? && k.path in m.event.evidence ==> m.event.evidence[k.path].sha == Sha(m.evidence[k])))
              && (|| m.event in j.events
                  || (&& ValidEvent(rules, m.event, j.events, j.blobs + Supplied(m.evidence))
                      && rules.entrySize(EntryAt(j.events + [m.event], |j.events| + 1)) <= 67108864))
  {
    hide Contract, ValidChain, ValidEvent, Find, Shas, EntryAt;
    var found := Find(j.events, m.event.id);
    if m.event in j.events {
      var i :| 0 <= i < |j.events| && j.events[i] == m.event;
      if found.value < i { IdsDiffer(rules, j.events, j.blobs, found.value, i); }
    } else if found.Some? && ValidEvent(rules, m.event, j.events, j.blobs + Supplied(m.evidence)) {
      NewIdentity(rules, m.event, j.events, j.blobs + Supplied(m.evidence), found.value);
    }
  }

  lemma NewIdentity(rules: Rules, e: Event, events: seq<Event>, blobs: set<Digest>, i: nat)
    requires ValidEvent(rules, e, events, blobs) && i < |events|
    ensures events[i].id != e.id
  {
    hide Contract, Retained, ValidSource;
  }

  /** An answered append names the entry that holds exactly its event; it is written exactly when the
      identity is new, and then it and its evidence are all that is added. */
  lemma AppendMeans(rules: Rules, j: Journal, m: Material)
    requires AppendOne(rules, j, m).Some?
    ensures var done := AppendOne(rules, j, m).value;
      && |done.results| == 1 && 1 <= done.results[0].sequence <= |done.journal.events|
      && done.journal.events[done.results[0].sequence - 1] == m.event
      && (done.results[0].written <==> forall e :: e in j.events ==> e.id != m.event.id)
      && if done.results[0].written
         then done.journal == Journal(j.events + [m.event], j.blobs + Shas(m.event)) && done.results[0].sequence == |j.events| + 1
         else done.journal == j
  {
    hide ValidEvent, EntryFits, WellFormed, Shas;
    assert j.blobs + {} == j.blobs;
  }

  /** A different event under a recorded identity is a conflict. */
  lemma ConflictRefused(rules: Rules, j: Journal, m: Material, i: nat)
    requires ValidChain(rules, j.events, j.blobs) && i < |j.events| && j.events[i].id == m.event.id && j.events[i] != m.event
    ensures AppendOne(rules, j, m).None?
  {
    hide ValidChain, ValidEvent, EntryFits, WellFormed, Find;
    var first := Find(j.events, m.event.id).value;
    if first < i { IdsDiffer(rules, j.events, j.blobs, first, i); }
  }

  /** Every answer of a batch names the entry that holds exactly its event, and it is written exactly
      when the journal did not hold that identity. */
  lemma BatchMeans(rules: Rules, j: Journal, ms: seq<Material>, k: nat)
    requires Batch(rules, j, ms).Some? && k < |ms|
    ensures var done := Batch(rules, j, ms).value;
      && 1 <= |ms| <= 4096 && |done.results| == |ms| && 1 <= done.results[k].sequence <= |done.journal.events|
      && done.journal.events[done.results[k].sequence - 1] == ms[k].event
      && (done.results[k].written <==> forall e :: e in j.events ==> e.id != ms[k].event.id)
  {
    hide Plan, WellFormed, Bytes, AllSupplied, AllShas;
    PlanMeans(rules, j.events, ms, j.blobs + AllSupplied(ms), k);
  }

  lemma {:induction false} PlanMeans(rules: Rules, events: seq<Event>, ms: seq<Material>, candidates: set<Digest>, k: nat)
    requires Plan(rules, events, ms, candidates).Some? && k < |ms|
    requires forall a, b :: 0 <= a < b < |ms| ==> ms[a].event.id != ms[b].event.id
    ensures var done := Plan(rules, events, ms, candidates).value;
      && |done.results| == |ms| && 1 <= done.results[k].sequence <= |done.events|
      && done.events[done.results[k].sequence - 1] == ms[k].event
      && (done.results[k].written <==> forall e :: e in events ==> e.id != ms[k].event.id)
    decreases |ms|
  {
    hide Step;
    var n := |ms| - 1;
    PlanExtends(rules, events, ms[..n], candidates);
    StepMeans(rules, Plan(rules, events, ms[..n], candidates).value.events, ms[n].event, candidates);
    if k < n {
      PlanMeans(rules, events, ms[..n], candidates, k);
    } else {
      PlannedIds(rules, events, ms[..n], candidates, ms[n].event.id);
    }
  }

  lemma StepMeans(rules: Rules, events: seq<Event>, e: Event, candidates: set<Digest>)
    requires Step(rules, events, e, candidates).Some?
    ensures var next := Step(rules, events, e, candidates).value;
      && events <= next.events && 1 <= next.result.sequence <= |next.events| && next.events[next.result.sequence - 1] == e
      && (next.result.written <==> !exists x :: x in events && x.id == e.id)
      && (forall x :: x in next.events <==> x in events || x == e)
  {
    hide ValidEvent, EntryFits;
  }

  /** A plan adds no identity but those of its materials. */
  lemma {:induction false} PlannedIds(rules: Rules, events: seq<Event>, ms: seq<Material>, candidates: set<Digest>, id: EventId)
    requires Plan(rules, events, ms, candidates).Some? && forall m :: m in ms ==> m.event.id != id
    ensures (exists e :: e in Plan(rules, events, ms, candidates).value.events && e.id == id) <==>
              exists e :: e in events && e.id == id
  {
    hide Step;
    if ms != [] {
      var n := |ms| - 1;
      assert forall m :: m in ms[..n] ==> m in ms;
      PlannedIds(rules, events, ms[..n], candidates, id);
      StepMeans(rules, Plan(rules, events, ms[..n], candidates).value.events, ms[n].event, candidates);
      assert ms[n] in ms;
    }
  }

  /** More candidates change no step that succeeds. */
  lemma StepWithMore(rules: Rules, events: seq<Event>, e: Event, candidates: set<Digest>, more: set<Digest>)
    requires Step(rules, events, e, candidates).Some? && candidates <= more
    ensures Step(rules, events, e, more) == Step(rules, events, e, candidates)
  {
    hide ValidEvent, EntryFits;
    if Find(events, e.id).None? { ValidWithMore(rules, e, events, candidates, more); }
  }

  /** Fewer candidates change no step either, as long as they hold what the event refers to. */
  lemma StepWithFewer(rules: Rules, events: seq<Event>, e: Event, candidates: set<Digest>, fewer: set<Digest>)
    requires Step(rules, events, e, candidates).Some? && fewer <= candidates
    ensures Step(rules, events, e, fewer).Some? <==> (Find(events, e.id).None? ==> Shas(e) <= fewer)
    ensures Step(rules, events, e, fewer).Some? ==> Step(rules, events, e, fewer) == Step(rules, events, e, candidates)
  {
    hide ValidSource, Contract, EntryFits;
    if Find(events, e.id).None? && Shas(e) <= fewer {
      assert Retained(e, fewer) by {
        forall p | p in e.evidence
          ensures e.evidence[p].sha in fewer
        {
          assert e.evidence[p].sha in Shas(e);
        }
      }
    }
  }

  // ---------------------------------------------------------------- the batch refines the single writer

  lemma {:induction false} SequentialIsPlanned(rules: Rules, j: Journal, ms: seq<Material>, candidates: set<Digest>)
    requires ValidChain(rules, j.events, j.blobs)
    requires AppendAll(rules, j, ms).Some? && j.blobs + AllSupplied(ms) <= candidates
    ensures var done := AppendAll(rules, j, ms).value;
      && Plan(rules, j.events, ms, candidates) == Some(Planned(done.journal.events, done.results))
      && j.events <= done.journal.events
      && done.journal.blobs == j.blobs + AllShas(done.journal.events[|j.events|..])
      && done.journal.blobs <= candidates
      && ValidChain(rules, done.journal.events, done.journal.blobs)
  {
    hide Step, WellFormed, ValidChain, Shas, AppendOne;
    if ms == [] {
      assert j.events[|j.events|..] == [];
    } else {
      var n := |ms| - 1;
      SequentialIsPlanned(rules, j, ms[..n], candidates);
      var done := AppendAll(rules, j, ms[..n]).value;
      AppendOneIsStep(rules, done.journal, ms[n], candidates);
      var next := AppendOne(rules, done.journal, ms[n]).value;
      assert next.results == [next.results[0]];
      var before, after := done.journal.events[|j.events|..], next.journal.events[|j.events|..];
      if next.results[0].written {
        assert after == before + [ms[n].event];
        AllShasOfAppend(before, ms[n].event);
      }
    }
  }

  lemma AppendOneIsStep(rules: Rules, j: Journal, m: Material, candidates: set<Digest>)
    requires ValidChain(rules, j.events, j.blobs)
    requires AppendOne(rules, j, m).Some? && j.blobs + Supplied(m.evidence) <= candidates
    ensures var next := AppendOne(rules, j, m).value;
      && |next.results| == 1
      && Step(rules, j.events, m.event, candidates) == Some(Stepped(next.journal.events, next.results[0]))
      && next.journal.events == (if next.results[0].written then j.events + [m.event] else j.events)
      && next.journal.blobs == j.blobs + (if next.results[0].written then Shas(m.event) else {})
      && (next.results[0].written ==> Shas(m.event) <= j.blobs + Supplied(m.evidence))
      && ValidChain(rules, next.journal.events, next.journal.blobs)
  {
    hide ValidEvent, WellFormed, ValidChain, EntryFits;
    var own := j.blobs + Supplied(m.evidence);
    StepWithMore(rules, j.events, m.event, own, candidates);
    if Find(j.events, m.event.id).None? {
      RetainedShas(rules, m.event, j.events, own, j.blobs + Shas(m.event));
      ChainWithMore(rules, j.events, j.blobs, j.blobs + Shas(m.event));
      ChainGrows(rules, j.events, m.event, j.blobs + Shas(m.event));
    } else {
      assert j.blobs + {} == j.blobs;
    }
  }

  /** Validity depends only on the referenced digests. */
  lemma RetainedShas(rules: Rules, e: Event, before: seq<Event>, blobs: set<Digest>, other: set<Digest>)
    requires ValidEvent(rules, e, before, blobs) && Shas(e) <= other
    ensures ValidEvent(rules, e, before, other) && Shas(e) <= blobs
  {
    hide ValidSource, Contract;
    forall p | p in e.evidence
      ensures e.evidence[p].sha in other
    {
      assert e.evidence[p].sha in Shas(e);
    }
  }

  /** Whenever the one-by-one appends all succeed, the batch succeeds with the same chain, the
      same retained evidence and the same results. */
  lemma BatchRefinesSequential(rules: Rules, j: Journal, ms: seq<Material>)
    requires ValidChain(rules, j.events, j.blobs)
    requires Admitted(rules, ms) && AppendAll(rules, j, ms).Some?
    ensures Batch(rules, j, ms) == AppendAll(rules, j, ms)
  {
    hide Admitted, ValidChain, AppendAll, Plan, AllSupplied, AllShas;
    SequentialIsPlanned(rules, j, ms, j.blobs + AllSupplied(ms));
  }

  predicate Recorded(events: seq<Event>, e: Event) {
    exists i :: 0 <= i < |events| && events[i].id == e.id
  }

  /** A new event finds its evidence already retained, supplied with it, or referenced by an
      earlier new event of the batch. */
  predicate Arrives(j: Journal, ms: seq<Material>, k: nat)
    requires k < |ms|
  {
    !Recorded(j.events, ms[k].event) ==>
      forall d :: d in Shas(ms[k].event) ==>
        || d in j.blobs || d in Supplied(ms[k].evidence)
        || exists i :: 0 <= i < k && !Recorded(j.events, ms[i].event) && d in Shas(ms[i].event)
  }

  /** The events of a batch that the chain does not hold yet. */
  function NewEvents(events: seq<Event>, ms: seq<Material>): seq<Event> {
    if ms == [] then []
    else NewEvents(events, ms[..|ms| - 1]) + (if Recorded(events, ms[|ms| - 1].event) then [] else [ms[|ms| - 1].event])
  }

  lemma {:induction false} NewEventsAre(events: seq<Event>, ms: seq<Material>)
    ensures forall e :: e in NewEvents(events, ms) <==>
              exists i :: 0 <= i < |ms| && !Recorded(events, ms[i].event) && ms[i].event == e
    ensures forall d :: d in AllShas(NewEvents(events, ms)) <==>
              exists i :: 0 <= i < |ms| && !Recorded(events, ms[i].event) && d in Shas(ms[i].event)
  {
    hide Shas, Recorded;
    if ms != [] {
      var n := |ms| - 1;
      NewEventsAre(events, ms[..n]);
      if !Recorded(events, ms[n].event) {
        AllShasOfAppend(NewEvents(events, ms[..n]), ms[n].event);
      } else {
        assert NewEvents(events, ms) == NewEvents(events, ms[..n]);
      }
      assert forall i :: 0 <= i < n ==> ms[..n][i] == ms[i];
    }
  }

  ghost predicate Distinct(ms: seq<Material>) {
    forall i, k :: 0 <= i < k < |ms| ==> ms[i].event.id != ms[k].event.id
  }

  /** With distinct identities, the candidate prefix holds an identity only if the chain did. */
  lemma FindAfter(events: seq<Event>, ms: seq<Material>, n: nat)
    requires n < |ms| && Distinct(ms)
    ensures Find(events + NewEvents(events, ms[..n]), ms[n].event.id).None? <==> !Recorded(events, ms[n].event)
  {
    hide Find, NewEvents;
    var sofar := events + NewEvents(events, ms[..n]);
    NewEventsAre(events, ms[..n]);
    if Recorded(events, ms[n].event) {
      var i :| 0 <= i < |events| && events[i].id == ms[n].event.id;
      assert sofar[i] == events[i];
    } else {
      forall i | 0 <= i < |sofar|
        ensures sofar[i].id != ms[n].event.id
      {
        if i >= |events| { assert sofar[i] in NewEvents(events, ms[..n]); }
      }
    }
  }

  lemma StepShape(rules: Rules, events: seq<Event>, e: Event, candidates: set<Digest>)
    requires Step(rules, events, e, candidates).Some?
    ensures Step(rules, events, e, candidates).value.events == events + if Find(events, e.id).None? then [e] else []
  {
    hide ValidEvent, EntryFits, Find;
  }

  /** A successful plan of distinct identities extends the chain by exactly its new events. */
  lemma {:induction false} PlanAddsNew(rules: Rules, events: seq<Event>, ms: seq<Material>, candidates: set<Digest>)
    requires Plan(rules, events, ms, candidates).Some? && Distinct(ms)
    ensures Plan(rules, events, ms, candidates).value.events == events + NewEvents(events, ms)
  {
    hide Step, Find, Recorded;
    if ms != [] {
      var n := |ms| - 1;
      PlanAddsNew(rules, events, ms[..n], candidates);
      FindAfter(events, ms, n);
      StepShape(rules, events + NewEvents(events, ms[..n]), ms[n].event, candidates);
    }
  }

  /** The other direction: a batch that succeeds would also have succeeded one by one exactly
      when no event depends on evidence that only a later material supplies. */
  lemma BatchIsSequentialIff(rules: Rules, j: Journal, ms: seq<Material>)
    requires ValidChain(rules, j.events, j.blobs) && Batch(rules, j, ms).Some?
    ensures AppendAll(rules, j, ms).Some? <==> forall k :: 0 <= k < |ms| ==> Arrives(j, ms, k)
  {
    hide WellFormed, ValidChain, AppendAll, Plan, AllShas, Arrives;
    SequentialIff(rules, j, ms, j.blobs + AllSupplied(ms));
  }

  lemma {:induction false} SequentialIff(rules: Rules, j: Journal, ms: seq<Material>, candidates: set<Digest>)
    requires ValidChain(rules, j.events, j.blobs) && j.blobs + AllSupplied(ms) <= candidates
    requires Plan(rules, j.events, ms, candidates).Some? && Distinct(ms)
    requires forall i :: 0 <= i < |ms| ==> WellFormed(rules, ms[i])
    ensures AppendAll(rules, j, ms).Some? <==> forall k :: 0 <= k < |ms| ==> Arrives(j, ms, k)
  {
    hide Step, WellFormed, ValidChain, Shas, Supplied, AllShas, Arrives, Recorded, NewEvents, AppendOne, Find;
    if ms != [] {
      var n := |ms| - 1;
      SequentialIff(rules, j, ms[..n], candidates);
      forall k | 0 <= k < n
        ensures Arrives(j, ms[..n], k) <==> Arrives(j, ms, k)
      {
        ArrivesOfPrefix(j, ms, n, k);
      }
      if AppendAll(rules, j, ms[..n]).Some? {
        PlanAddsNew(rules, j.events, ms[..n], candidates);
        FindAfter(j.events, ms, n);
        SequentialIsPlanned(rules, j, ms[..n], candidates);
        var done := AppendAll(rules, j, ms[..n]).value;
        assert done.journal.events[|j.events|..] == NewEvents(j.events, ms[..n]);
        LastArrives(rules, j, done.journal, ms, candidates);
      }
    }
  }

  lemma ArrivesOfPrefix(j: Journal, ms: seq<Material>, n: nat, k: nat)
    requires k < n <= |ms|
    ensures Arrives(j, ms[..n], k) <==> Arrives(j, ms, k)
  {
    hide Recorded, Shas, Supplied;
    assert forall i :: 0 <= i < n ==> ms[..n][i] == ms[i];
  }

  lemma LastArrives(rules: Rules, j: Journal, done: Journal, ms: seq<Material>, candidates: set<Digest>)
    requires ms != [] && WellFormed(rules, ms[|ms| - 1])
    requires done.events == j.events + NewEvents(j.events, ms[..|ms| - 1])
    requires done.blobs == j.blobs + AllShas(NewEvents(j.events, ms[..|ms| - 1]))
    requires done.blobs + Supplied(ms[|ms| - 1].evidence) <= candidates
    requires Step(rules, done.events, ms[|ms| - 1].event, candidates).Some?
    requires Find(done.events, ms[|ms| - 1].event.id).None? <==> !Recorded(j.events, ms[|ms| - 1].event)
    ensures AppendOne(rules, done, ms[|ms| - 1]).Some? <==> Arrives(j, ms, |ms| - 1)
  {
    hide Step, WellFormed, Shas, Supplied, AllShas, Recorded;
    var n := |ms| - 1;
    var own := done.blobs + Supplied(ms[n].evidence);
    StepWithFewer(rules, done.events, ms[n].event, candidates, own);
    NewEventsAre(j.events, ms[..n]);
    assert forall i :: 0 <= i < n ==> ms[..n][i] == ms[i];
    forall d
      ensures d in own <==>
                || d in j.blobs || d in Supplied(ms[n].evidence)
                || exists i :: 0 <= i < n && !Recorded(j.events, ms[i].event) && d in Shas(ms[i].event)
    {
    }
    assert AppendOne(rules, done, ms[n]).Some? <==> Step(rules, done.events, ms[n].event, own).Some?;
    assert Arrives(j, ms, n) <==> (!Recorded(j.events, ms[n].event) ==> Shas(ms[n].event) <= own);
  }

  // ---------------------------------------------------------------- retries

  /** What a killed attempt to get from `j` to `final` can leave behind. */
  ghost predicate Between(j: Journal, k: Journal, final: Journal) {
    && j.events <= k.events <= final.events && j.blobs <= k.blobs <= final.blobs
  }

  /** The same step from a chain that may already hold the event. */
  lemma StepAgain(rules: Rules, short: seq<Event>, long: seq<Event>, e: Event, candidates: set<Digest>, more: set<Digest>)
    requires Step(rules, short, e, candidates).Some? && candidates <= more
    requires short <= long && (Find(short, e.id).None? && |short| < |long| ==> long[|short|] == e)
    ensures Step(rules, long, e, more).Some?
    ensures var s, l := Step(rules, short, e, candidates).value, Step(rules, long, e, more).value;
      && l.result.sequence == s.result.sequence
      && l.events == if |s.events| <= |long| then long else s.events
  {
    hide ValidEvent, EntryFits;
    if Find(short, e.id).Some? {
      var i := Find(short, e.id).value;
      assert long[i] == short[i];
      assert Find(long, e.id) == Some(i) by {
        assert forall k :: 0 <= k < i ==> long[k] == short[k];
      }
    } else if |short| < |long| {
      assert forall k :: 0 <= k < |short| ==> long[k] == short[k];
      assert Find(long, e.id) == Some(|short|);
    } else {
      assert long == short;
      StepWithMore(rules, short, e, candidates, more);
    }
  }

  lemma {:induction false} PlanAgain(rules: Rules, short: seq<Event>, long: seq<Event>, ms: seq<Material>,
                                     candidates: set<Digest>, more: set<Digest>, final: seq<Event>)
    requires candidates <= more && short <= long <= final
    requires Plan(rules, short, ms, candidates).Some? && Plan(rules, short, ms, candidates).value.events <= final
    ensures Plan(rules, long, ms, more).Some?
    ensures var s, l := Plan(rules, short, ms, candidates).value, Plan(rules, long, ms, more).value;
      && l.events == (if |s.events| <= |long| then long else s.events)
      && |l.results| == |s.results| && forall i :: 0 <= i < |s.results| ==> l.results[i].sequence == s.results[i].sequence
  {
    hide Step, Find;
    if ms != [] {
      var n := |ms| - 1;
      var done := Plan(rules, short, ms[..n], candidates).value;
      StepShape(rules, done.events, ms[n].event, candidates);
      PlanAgain(rules, short, long, ms[..n], candidates, more, final);
      var l := Plan(rules, long, ms[..n], more).value;
      assert done.events <= l.events <= final;
      StepAgain(rules, done.events, l.events, ms[n].event, candidates, more);
    }
  }

  lemma {:induction false} AllShasAre(events: seq<Event>)
    ensures forall d :: d in AllShas(events) <==> exists i :: 0 <= i < |events| && d in Shas(events[i])
  {
    hide Shas;
    if events != [] {
      AllShasAre(events[..|events| - 1]);
      assert events == events[..|events| - 1] + [events[|events| - 1]];
    }
  }

  /** An exact batch retry after a kill ends in the same journal with the same sequence numbers. */
  lemma RetryConverges(rules: Rules, j: Journal, k: Journal, ms: seq<Material>)
    requires Batch(rules, j, ms).Some? && Between(j, k, Batch(rules, j, ms).value.journal)
    requires ValidChain(rules, k.events, k.blobs)
    ensures Batch(rules, k, ms).Some?
    ensures var a, b := Batch(rules, j, ms).value, Batch(rules, k, ms).value;
      && b.journal == a.journal
      && |b.results| == |a.results| && forall i :: 0 <= i < |a.results| ==> b.results[i].sequence == a.results[i].sequence
  {
    hide Plan, Admitted, AllSupplied, Shas, ValidEvent, AllShas;
    var final := Batch(rules, j, ms).value.journal;
    PlanExtends(rules, j.events, ms, j.blobs + AllSupplied(ms));
    PlanAgain(rules, j.events, k.events, ms, j.blobs + AllSupplied(ms), k.blobs + AllSupplied(ms), final.events);
    var all, rest := final.events[|j.events|..], final.events[|k.events|..];
    AllShasAre(all);
    AllShasAre(rest);
    forall d | d in AllShas(all)
      ensures d in k.blobs + AllShas(rest)
    {
      var i :| 0 <= i < |all| && d in Shas(all[i]);
      if |j.events| + i < |k.events| {
        assert k.events[|j.events| + i] == all[i];
        EvidenceIsRetained(rules, k.events, k.blobs, |j.events| + i);
      } else {
        assert rest[|j.events| + i - |k.events|] == all[i];
      }
    }
    forall d | d in AllShas(rest)
      ensures d in AllShas(all)
    {
      var i :| 0 <= i < |rest| && d in Shas(rest[i]);
      assert all[i + |k.events| - |j.events|] == rest[i];
    }
    assert final.blobs == j.blobs + AllShas(all);
    assert k.blobs + AllShas(rest) == final.blobs;
    assert Batch(rules, k, ms).value.journal.events == final.events;
  }

  /** The same for a single append. */
  lemma AppendRetryConverges(rules: Rules, j: Journal, k: Journal, m: Material)
    requires ValidChain(rules, j.events, j.blobs) && ValidChain(rules, k.events, k.blobs)
    requires AppendOne(rules, j, m).Some? && Between(j, k, AppendOne(rules, j, m).value.journal)
    ensures AppendOne(rules, k, m).Some?
    ensures var a, b := AppendOne(rules, j, m).value, AppendOne(rules, k, m).value;
      b.journal == a.journal && |a.results| == |b.results| == 1 && b.results[0].sequence == a.results[0].sequence
  {
    hide Step, ValidChain, WellFormed, Find, Shas;
    var done := AppendOne(rules, j, m).value;
    var own, more := j.blobs + Supplied(m.evidence), k.blobs + Supplied(m.evidence);
    AppendOneIsStep(rules, j, m, own);
    StepShape(rules, j.events, m.event, own);
    StepAgain(rules, j.events, k.events, m.event, own, more);
    AppendOneIsStep(rules, k, m, more);
    if !AppendOne(rules, k, m).value.results[0].written && |k.events| > |j.events| {
      EvidenceIsRetained(rules, k.events, k.blobs, |j.events|);
      assert k.events[|j.events|] == done.journal.events[|j.events|];
    }
  }

  /** Any number of killed attempts, each retrying the same batch on what the last one left,
      is followed by the same final chain. */
  lemma {:induction false} RetriesConverge(rules: Rules, history: seq<Journal>, ms: seq<Material>)
    requires history != [] && Batch(rules, history[0], ms).Some?
    requires forall i :: 0 <= i < |history| ==> ValidChain(rules, history[i].events, history[i].blobs)
    requires forall i :: 0 < i < |history| ==>
               Batch(rules, history[i - 1], ms).Some? ==>
                 Between(history[i - 1], history[i], Batch(rules, history[i - 1], ms).value.journal)
    ensures Batch(rules, history[|history| - 1], ms).Some?
    ensures Batch(rules, history[|history| - 1], ms).value.journal == Batch(rules, history[0], ms).value.journal
  {
    hide Batch, ValidChain, Between;
    var n := |history| - 1;
    if n > 0 {
      RetriesConverge(rules, history[..n], ms);
      assert Between(history[n - 1], history[n], Batch(rules, history[n - 1], ms).value.journal);
      RetryConverges(rules, history[n - 1], history[n], ms);
    }
  }

  // ---------------------------------------------------------------- the converse fails

  function Note(id: nat, about: Digest): Event {
    Event(OtherEvent(id), OtherDecision(id), Trading, 0, Governed(0, about),
          map[OtherPath("note") := Ref(about, about.blob.size)], GovernedPayload(id))
  }

  const LENIENT := Rules((e: Event, before: seq<Event>) => true, (e: Event) => 0, (e: Entry) => 0)

  const EARLY := Sha(Blob(OtherDoc(1), false, 1))
  const LATE := Sha(Blob(OtherDoc(2), false, 1))
  const FIRST := Material(Note(1, EARLY), map[])
  const SECOND := Material(Note(2, LATE), map[ByDigest(EARLY) := EARLY.blob, ByDigest(LATE) := LATE.blob])

  /** A batch whose first event refers to bytes that only its second material supplies is
      accepted, although appending the same materials in order is refused at the first. */
  lemma LateEvidence()
    ensures Batch(LENIENT, Journal([], {}), [FIRST, SECOND]).Some?
    ensures AppendAll(LENIENT, Journal([], {}), [FIRST, SECOND]).None?
  {
    hide Step, WellFormed, Bytes;
    var none, ms := Journal([], {}), [FIRST, SECOND];
    LateMaterials();
    assert ms[..1] == [FIRST] && [FIRST][..0] == [];
    assert AllSupplied(ms) == {EARLY, LATE} by {
      assert AllSupplied([FIRST]) == AllSupplied([]) + Supplied(FIRST.evidence);
    }
    TwoBytes(EARLY, LATE);
    assert Plan(LENIENT, [], [], {EARLY, LATE}) == Some(Planned([], []));
    assert Plan(LENIENT, [], [FIRST], {EARLY, LATE}).Some?;
    assert Plan(LENIENT, [], [FIRST], {EARLY, LATE}).value.events == [FIRST.event];
    assert none.blobs + AllSupplied(ms) == {EARLY, LATE};
    assert AppendAll(LENIENT, none, []) == Some(Appended(none, []));
    assert none.blobs + Supplied(FIRST.evidence) == {};
    assert AppendAll(LENIENT, none, [FIRST]).None?;
  }

  lemma LateMaterials()
    ensures WellFormed(LENIENT, FIRST) && WellFormed(LENIENT, SECOND)
    ensures Supplied(FIRST.evidence) == {} && Supplied(SECOND.evidence) == {EARLY, LATE}
    ensures Step(LENIENT, [], FIRST.event, {}).None?
    ensures Step(LENIENT, [], FIRST.event, {EARLY, LATE}) == Some(Stepped([FIRST.event], Result(true, 1)))
    ensures Step(LENIENT, [FIRST.event], SECOND.event, {EARLY, LATE}).Some?
  {
    hide EntryAt;
    assert [] + [FIRST.event] == [FIRST.event];
    assert ByDigest(EARLY) in SECOND.evidence && ByDigest(LATE) in SECOND.evidence;
    assert OtherPath("note") in FIRST.event.evidence && OtherPath("note") in SECOND.event.evidence;
    assert FIRST.event.source.sha in Shas(FIRST.event) && SECOND.event.source.sha in Shas(SECOND.event);
  }

  lemma TwoBytes(a: Digest, b: Digest)
    requires a != b && a.blob.size == b.blob.size == 1
    ensures Bytes({a, b}) == 2
  {
    assert Bytes({a}) == 1 by { assert {a} - {a} == {}; }
    assert Bytes({b}) == 1 by { assert {b} - {b} == {}; }
    var d :| d in {a, b} && Bytes({a, b}) == d.blob.size + Bytes({a, b} - {d});
    assert {a, b} - {d} == if d == a then {b} else {a};
  }
}
