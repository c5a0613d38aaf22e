/** The ordered, write-once publication of a mission's presentation supplements: the artifacts
    first, the context that references them last, by any number of concurrent captures. */
module CabinContext {
  import opened Options

  datatype Target = MarketFile | PortfolioFile | ContextFile

  /** A context references its artifacts by digest and size, so it determines their bytes. */
  datatype Bytes =
    | Market(market: nat)
    | Portfolio(portfolio: nat)
    | ContextDoc(mission: string, capturedAt: int, marketRef: Option<Bytes>, portfolioRef: Option<Bytes>)

  datatype Item = Item(target: Target, payload: Bytes)

  type Files = map<Target, Bytes>

  /** The publication order of `capture_cabin_context`. */
  function Items(doc: Bytes): seq<Item>
    requires doc.ContextDoc?
  {
    (if doc.marketRef.Some? then [Item(MarketFile, doc.marketRef.value)] else [])
    + (if doc.portfolioRef.Some? then [Item(PortfolioFile, doc.portfolioRef.value)] else [])
    + [Item(ContextFile, doc)]
  }

  predicate Holds(files: Files, item: Item) {
    item.target in files && files[item.target] == item.payload
  }

  /** If the context file exists, every artifact it references exists with the referenced bytes. */
  predicate Complete(files: Files) {
    ContextFile in files ==>
      && files[ContextFile].ContextDoc?
      && (files[ContextFile].marketRef.Some? ==> Holds(files, Item(MarketFile, files[ContextFile].marketRef.value)))
      && (files[ContextFile].portfolioRef.Some? ==> Holds(files, Item(PortfolioFile, files[ContextFile].portfolioRef.value)))
  }

  // ---------------------------------------------------------------- concurrent captures

  datatype Temp = Torn | Whole(bytes: Bytes)

  /** `existing` is what the first pass found; a temporary file is private to its capture. */
  datatype Pc =
    | Checking(existing: seq<bool>)
    | Publishing(index: nat, existing: seq<bool>)
    | Rechecking(index: nat, existing: seq<bool>)
    | Filling(index: nat, existing: seq<bool>, temp: nat)
    | Linking(index: nat, existing: seq<bool>, temp: nat)
    | Dropping(index: nat, existing: seq<bool>, temp: nat, ok: bool)
    | Done
    | Failed

  datatype Proc = Proc(doc: Bytes, pc: Pc)

  datatype State = State(files: Files, temps: map<nat, Temp>, procs: map<nat, Proc>, next: nat)

  ghost predicate Moves(s: State, s': State, p: nat, pc: Pc)
    requires p in s.procs
  {
    s'.procs == s.procs[p := s.procs[p].(pc := pc)]
  }

  ghost predicate SameDisk(s: State, s': State) {
    s'.files == s.files && s'.temps == s.temps && s'.next == s.next
  }

  /** One step of one capture. */
  ghost predicate Step(s: State, s': State, p: nat)
    requires p in s.procs && s.procs[p].doc.ContextDoc?
  {
    var items := Items(s.procs[p].doc);
    match s.procs[p].pc
    case Checking(existing) =>
      && SameDisk(s, s') && |existing| <= |items|
      && if |existing| == |items| then Moves(s, s', p, Publishing(0, existing))
         else if items[|existing|].target !in s.files then Moves(s, s', p, Checking(existing + [false]))
         else if Holds(s.files, items[|existing|]) then Moves(s, s', p, Checking(existing + [true]))
         else Moves(s, s', p, Failed)
    case Publishing(i, existing) =>
      && SameDisk(s, s') && i <= |items| == |existing|
      && if i == |items| then Moves(s, s', p, Done)
         else if existing[i] then Moves(s, s', p, Publishing(i + 1, existing))
         else Moves(s, s', p, Rechecking(i, existing))
    case Rechecking(i, existing) =>
      && i < |items|
      && if items[i].target in s.files then
           SameDisk(s, s') && Moves(s, s', p, if Holds(s.files, items[i]) then Publishing(i + 1, existing) else Failed)
         else
           && s'.files == s.files && s'.temps == s.temps[s.next := Torn] && s'.next == s.next + 1
           && Moves(s, s', p, Filling(i, existing, s.next))
    case Filling(i, existing, t) =>
      && i < |items| && s'.files == s.files && s'.next == s.next
      && s'.temps == s.temps[t := Whole(items[i].payload)] && Moves(s, s', p, Linking(i, existing, t))
    case Linking(i, existing, t) =>
      && i < |items| && t in s.temps && s.temps[t].Whole? && s'.temps == s.temps && s'.next == s.next
      && if items[i].target in s.files then
           s'.files == s.files && Moves(s, s', p, Dropping(i, existing, t, Holds(s.files, items[i])))
         else
           && s'.files == s.files[items[i].target := s.temps[t].bytes]
           && Moves(s, s', p, Dropping(i, existing, t, true))
    case Dropping(i, existing, t, ok) =>
      && s'.files == s.files && s'.temps == s.temps - {t} && s'.next == s.next
      && Moves(s, s', p, if ok then Publishing(i + 1, existing) else Failed)
    case _ => false
  }

  /** A capture starts, for any inputs; or a running one is killed and leaves its temporary file. */
  ghost predicate Next(s: State, s': State) {
    || (exists p :: p in s.procs && s.procs[p].doc.ContextDoc? && Step(s, s', p))
    || (exists p :: p in s.procs && SameDisk(s, s') && s'.procs == s.procs - {p})
    || (exists p: nat, doc: Bytes :: p !in s.procs && doc.ContextDoc? && SameDisk(s, s')
          && s'.procs == s.procs[p := Proc(doc, Checking([]))])
  }

  /** A target of this context is already there with other bytes. */
  predicate Contradicts(files: Files, doc: Bytes)
    requires doc.ContextDoc?
  {
    || (doc.marketRef.Some? && MarketFile in files && files[MarketFile] != doc.marketRef.value)
    || (doc.portfolioRef.Some? && PortfolioFile in files && files[PortfolioFile] != doc.portfolioRef.value)
    || (ContextFile in files && files[ContextFile] != doc)
  }

  /** Files the first pass or a later step has seen, or published, stay as they are. */
  predicate Seen(files: Files, items: seq<Item>, existing: seq<bool>) {
    |existing| <= |items| && forall k :: 0 <= k < |existing| && existing[k] ==> Holds(files, items[k])
  }

  predicate Before(files: Files, items: seq<Item>, i: nat) {
    i <= |items| && forall k :: 0 <= k < i ==> Holds(files, items[k])
  }

  ghost predicate ProcOk(s: State, proc: Proc) {
    && proc.doc.ContextDoc?
    && var items := Items(proc.doc);
    match proc.pc
    case Checking(existing) => Seen(s.files, items, existing)
    case Publishing(i, existing) => |existing| == |items| && Seen(s.files, items, existing) && Before(s.files, items, i)
    case Rechecking(i, existing) =>
      |existing| == |items| && i < |items| && Seen(s.files, items, existing) && Before(s.files, items, i)
    case Filling(i, existing, t) =>
      && |existing| == |items| && i < |items| && t < s.next && Seen(s.files, items, existing) && Before(s.files, items, i)
    case Linking(i, existing, t) =>
      && |existing| == |items| && i < |items| && t < s.next && Seen(s.files, items, existing) && Before(s.files, items, i)
      && t in s.temps && s.temps[t] == Whole(items[i].payload)
    case Dropping(i, existing, t, ok) =>
      && |existing| == |items| && i < |items| && t < s.next && Seen(s.files, items, existing) && Before(s.files, items, i)
      && (if ok then Before(s.files, items, i + 1) else Contradicts(s.files, proc.doc))
    case Done => Before(s.files, items, |items|)
    case Failed => Contradicts(s.files, proc.doc)
  }

  function TempOf(pc: Pc): Option<nat> {
    match pc
    case Filling(_, _, t) => Some(t)
    case Linking(_, _, t) => Some(t)
    case Dropping(_, _, t, _) => Some(t)
    case _ => None
  }

  ghost predicate Inv(s: State) {
    && Complete(s.files)
    && (forall p :: p in s.procs ==> ProcOk(s, s.procs[p]))
    && (forall p, q :: p in s.procs && q in s.procs && p != q && TempOf(s.procs[p].pc).Some? ==>
          TempOf(s.procs[p].pc) != TempOf(s.procs[q].pc))
  }

  /** Nothing published is ever changed or removed. */
  ghost predicate Grows(files: Files, files': Files) {
    forall t :: t in files ==> t in files' && files'[t] == files[t]
  }

  lemma StillOk(s: State, s': State, proc: Proc)
    requires ProcOk(s, proc) && Grows(s.files, s'.files) && s.next <= s'.next
    requires TempOf(proc.pc).Some? && proc.pc.Linking? ==>
               proc.pc.temp in s'.temps && (proc.pc.temp in s.temps ==> s'.temps[proc.pc.temp] == s.temps[proc.pc.temp])
    ensures ProcOk(s', proc)
  {
    var items := Items(proc.doc);
    assert forall k :: 0 <= k < |items| ==> Holds(s.files, items[k]) ==> Holds(s'.files, items[k]);
    ContradictionStays(s.files, s'.files, proc.doc);
  }

  lemma ContradictionStays(files: Files, files': Files, doc: Bytes)
    requires doc.ContextDoc? && Grows(files, files')
    ensures Contradicts(files, doc) ==> Contradicts(files', doc)
  {
  }

  lemma Contradicted(files: Files, doc: Bytes, i: nat)
    requires doc.ContextDoc? && i < |Items(doc)| && Items(doc)[i].target in files && !Holds(files, Items(doc)[i])
    ensures Contradicts(files, doc)
  {
    ItemsAre(files, doc);
  }

  lemma Linked(files: Files, items: seq<Item>, i: nat, doc: Bytes)
    requires doc.ContextDoc? && items == Items(doc) && i < |items| && Before(files, items, i)
    requires Complete(files) && items[i].target !in files
    ensures var files' := files[items[i].target := items[i].payload];
      Complete(files') && Grows(files, files') && Before(files', items, i + 1)
  {
    var files' := files[items[i].target := items[i].payload];
    forall k | 0 <= k < i + 1
      ensures Holds(files', items[k])
    {
      assert k < i ==> Holds(files, items[k]);
    }
    if items[i].target == ContextFile {
      assert i == |items| - 1 && items[i].payload == doc;
      if doc.marketRef.Some? { assert Holds(files', items[0]); }
      if doc.portfolioRef.Some? { assert Holds(files', items[i - 1]); }
    }
  }

  lemma StepFrame(s: State, s': State, p: nat)
    requires Inv(s) && p in s.procs && s.procs[p].doc.ContextDoc? && Step(s, s', p)
    ensures Complete(s'.files) && Grows(s.files, s'.files) && s.next <= s'.next
    ensures s'.procs.Keys == s.procs.Keys && forall q :: q in s.procs && q != p ==> s'.procs[q] == s.procs[q]
    ensures TempOf(s'.procs[p].pc) in {None, Some(s.next), TempOf(s.procs[p].pc)}
    ensures forall t :: t in s.temps && Some(t) != TempOf(s.procs[p].pc) && t < s.next ==> t in s'.temps && s'.temps[t] == s.temps[t]
  {
    hide Complete, Items, Seen, Holds;
    assert ProcOk(s, s.procs[p]);
    var items := Items(s.procs[p].doc);
    if s.procs[p].pc.Linking? && items[s.procs[p].pc.index].target !in s.files {
      Linked(s.files, items, s.procs[p].pc.index, s.procs[p].doc);
    }
  }

  lemma SeenGrows(files: Files, files': Files, items: seq<Item>, existing: seq<bool>, i: nat)
    requires Grows(files, files') && i <= |items|
    ensures Seen(files, items, existing) ==> Seen(files', items, existing)
    ensures Before(files, items, i) ==> Before(files', items, i)
  {
    assert forall k :: 0 <= k < |items| && Holds(files, items[k]) ==> Holds(files', items[k]);
  }

  lemma LinkOk(s: State, s': State, p: nat)
    requires Inv(s) && p in s.procs && s.procs[p].pc.Linking? && s.procs[p].doc.ContextDoc? && Step(s, s', p)
    ensures ProcOk(s', s'.procs[p])
  {
    hide Complete, Items, Seen, Before;
    assert ProcOk(s, s.procs[p]);
    var items, i := Items(s.procs[p].doc), s.procs[p].pc.index;
    StepFrame(s, s', p);
    SeenGrows(s.files, s'.files, items, s.procs[p].pc.existing, i);
    if items[i].target !in s.files {
      Linked(s.files, items, i, s.procs[p].doc);
    } else if Holds(s.files, items[i]) {
      OneMore(s.files, items, i);
    } else {
      Contradicted(s.files, s.procs[p].doc, i);
    }
  }

  lemma OneMore(files: Files, items: seq<Item>, i: nat)
    requires Before(files, items, i) && i < |items| && Holds(files, items[i])
    ensures Before(files, items, i + 1)
  {
  }

  lemma StepOk(s: State, s': State, p: nat)
    requires Inv(s) && p in s.procs && s.procs[p].doc.ContextDoc? && Step(s, s', p)
    ensures ProcOk(s', s'.procs[p])
  {
    hide Complete, Items, Holds, Grows, Contradicts;
    assert ProcOk(s, s.procs[p]);
    var doc, pc := s.procs[p].doc, s.procs[p].pc;
    match pc
    case Linking(_, _, _) => LinkOk(s, s', p);
    case Checking(existing) =>
      if s'.procs[p].pc.Failed? { Contradicted(s.files, doc, |existing|); }
    case Rechecking(i, _) =>
      if s'.procs[p].pc.Failed? { Contradicted(s.files, doc, i); }
    case _ =>
  }

  lemma NextKeeps(s: State, s': State)
    requires Inv(s) && Next(s, s')
    ensures Inv(s') && Grows(s.files, s'.files)
  {
    hide Complete, Step, Items, ProcOk, Grows;
    if p :| p in s.procs && s.procs[p].doc.ContextDoc? && Step(s, s', p) {
      StepFrame(s, s', p);
      StepOk(s, s', p);
      forall q | q in s'.procs
        ensures ProcOk(s', s'.procs[q])
      {
        if q != p {
          OwnTemp(s, s.procs[q]);
          assert TempOf(s.procs[q].pc).Some? ==> TempOf(s.procs[q].pc) != TempOf(s.procs[p].pc);
          StillOk(s, s', s.procs[q]);
        }
      }
      forall q | q in s.procs && TempOf(s.procs[q].pc).Some?
        ensures TempOf(s.procs[q].pc).value < s.next
      {
        OwnTemp(s, s.procs[q]);
      }
    } else {
      SameFiles(s.files);
      forall q | q in s'.procs
        ensures ProcOk(s', s'.procs[q])
      {
        if q in s.procs {
          OwnTemp(s, s.procs[q]);
          StillOk(s, s', s.procs[q]);
        } else {
          Newcomer(s', s'.procs[q]);
        }
      }
    }
  }

  lemma OwnTemp(s: State, proc: Proc)
    requires ProcOk(s, proc)
    ensures TempOf(proc.pc).Some? ==> TempOf(proc.pc).value < s.next
    ensures proc.pc.Linking? ==> proc.pc.temp in s.temps
  {
  }

  lemma SameFiles(files: Files)
    ensures Grows(files, files)
  {
  }

  lemma Newcomer(s: State, proc: Proc)
    requires proc.doc.ContextDoc? && proc.pc == Checking([])
    ensures ProcOk(s, proc)
  {
  }

  /** Any number of captures, from any directory whose context, if there is one, is complete. */
  ghost predicate IsRun(run: seq<State>) {
    && run != [] && run[0].procs == map[] && Complete(run[0].files)
    && forall i :: 0 <= i < |run| - 1 ==> Next(run[i], run[i + 1])
  }

  /** In every run of concurrent, conflicting, killed and retried captures, at every point: if the
      context file exists, every artifact it references exists with the referenced bytes; and
      nothing published ever changes. */
  lemma {:induction false} ContextIsComplete(run: seq<State>, i: nat, j: nat)
    requires IsRun(run) && i <= j < |run|
    ensures Inv(run[j]) && Complete(run[j].files) && Grows(run[i].files, run[j].files)
    decreases j
  {
    if j > 0 {
      ContextIsComplete(run, if i < j then i else j - 1, j - 1);
      assert Next(run[j - 1], run[j - 1 + 1]);
      NextKeeps(run[j - 1], run[j]);
    }
  }

  /** In every run a capture that finished has its whole set published, context included; one that
      failed met a file with other bytes, which is still there. */
  lemma FinishedIsPublished(run: seq<State>, i: nat, p: nat)
    requires IsRun(run) && i < |run| && p in run[i].procs
    ensures run[i].procs[p].doc.ContextDoc?
    ensures run[i].procs[p].pc.Done? ==> Presents(run[i].files, run[i].procs[p].doc)
    ensures run[i].procs[p].pc.Failed? ==> Contradicts(run[i].files, run[i].procs[p].doc)
  {
    hide Complete, Items, Holds, Contradicts, Presents, Grows;
    ContextIsComplete(run, i, i);
    assert ProcOk(run[i], run[i].procs[p]);
    ItemsAre(run[i].files, run[i].procs[p].doc);
  }

  /** How many steps of its own a capture has left, at most. */
  function Left(proc: Proc): int
    requires proc.doc.ContextDoc?
  {
    var n := |Items(proc.doc)|;
    match proc.pc
    case Checking(existing) => 6 * n + 2 - |existing|
    case Publishing(i, _) => 5 * (n - i) + 1
    case Rechecking(i, _) => 5 * (n - i)
    case Filling(i, _, _) => 5 * (n - i) - 1
    case Linking(i, _, _) => 5 * (n - i) - 2
    case Dropping(i, _, _, _) => 5 * (n - i) - 3
    case _ => 0
  }

  lemma LeftIs(s: State, proc: Proc)
    requires ProcOk(s, proc)
    ensures 0 <= Left(proc) <= 20 && (Left(proc) == 0 <==> proc.pc.Done? || proc.pc.Failed?)
  {
    hide Holds, Contradicts;
  }

  lemma StepsNearer(s: State, s': State, p: nat)
    requires p in s.procs && ProcOk(s, s.procs[p]) && Step(s, s', p)
    ensures p in s'.procs && s'.procs[p].doc == s.procs[p].doc && Left(s'.procs[p]) < Left(s.procs[p])
  {
    hide Holds, Contradicts, Seen, Before, Items;
  }

  lemma CanStep(s: State, p: nat)
    requires p in s.procs && ProcOk(s, s.procs[p]) && !s.procs[p].pc.Done? && !s.procs[p].pc.Failed?
    ensures exists s' :: Step(s, s', p)
  {
    hide Holds, Contradicts, Items;
    var items := Items(s.procs[p].doc);
    var next := match s.procs[p].pc
      case Checking(existing) =>
        s.(procs := s.procs[p := s.procs[p].(pc :=
          if |existing| == |items| then Publishing(0, existing)
          else if items[|existing|].target !in s.files then Checking(existing + [false])
          else if Holds(s.files, items[|existing|]) then Checking(existing + [true])
          else Failed)])
      case Publishing(i, existing) =>
        s.(procs := s.procs[p := s.procs[p].(pc :=
          if i == |items| then Done else if existing[i] then Publishing(i + 1, existing) else Rechecking(i, existing))])
      case Rechecking(i, existing) =>
        if items[i].target in s.files then
          s.(procs := s.procs[p := s.procs[p].(pc := if Holds(s.files, items[i]) then Publishing(i + 1, existing) else Failed)])
        else
          s.(procs := s.procs[p := s.procs[p].(pc := Filling(i, existing, s.next))],
             temps := s.temps[s.next := Torn], next := s.next + 1)
      case Filling(i, existing, t) =>
        s.(procs := s.procs[p := s.procs[p].(pc := Linking(i, existing, t))], temps := s.temps[t := Whole(items[i].payload)])
      case Linking(i, existing, t) =>
        if items[i].target in s.files then
          s.(procs := s.procs[p := s.procs[p].(pc := Dropping(i, existing, t, Holds(s.files, items[i])))])
        else
          s.(procs := s.procs[p := s.procs[p].(pc := Dropping(i, existing, t, true))],
             files := s.files[items[i].target := s.temps[t].bytes])
      case Dropping(i, existing, t, ok) =>
        s.(procs := s.procs[p := s.procs[p].(pc := if ok then Publishing(i + 1, existing) else Failed)], temps := s.temps - {t})
      case _ => s;
    assert Step(s, next, p);
  }

  /** Whatever the others do, a capture is never blocked, and each of its own steps brings it nearer
      to its end: it is done, or has failed, after at most twenty. */
  lemma EveryCaptureEnds(run: seq<State>, i: nat, p: nat)
    requires IsRun(run) && i < |run| && p in run[i].procs && run[i].procs[p].doc.ContextDoc?
    ensures 0 <= Left(run[i].procs[p]) <= 20
    ensures Left(run[i].procs[p]) == 0 <==> run[i].procs[p].pc.Done? || run[i].procs[p].pc.Failed?
    ensures Left(run[i].procs[p]) > 0 ==> exists s' :: Step(run[i], s', p)
    ensures forall s' :: Step(run[i], s', p) ==>
              p in s'.procs && s'.procs[p].doc == run[i].procs[p].doc && Left(s'.procs[p]) < Left(run[i].procs[p])
  {
    hide Complete, Holds, Contradicts, Grows, Seen, Before, Step;
    ContextIsComplete(run, i, i);
    assert ProcOk(run[i], run[i].procs[p]);
    LeftIs(run[i], run[i].procs[p]);
    if Left(run[i].procs[p]) > 0 { CanStep(run[i], p); }
    forall s' | Step(run[i], s', p)
      ensures p in s'.procs && s'.procs[p].doc == run[i].procs[p].doc && Left(s'.procs[p]) < Left(run[i].procs[p])
    {
      StepsNearer(run[i], s', p);
    }
  }

  /** The context is there, and every artifact it references, with the referenced bytes. */
  predicate Presents(files: Files, doc: Bytes)
    requires doc.ContextDoc?
  {
    && ContextFile in files && files[ContextFile] == doc
    && (doc.marketRef.Some? ==> MarketFile in files && files[MarketFile] == doc.marketRef.value)
    && (doc.portfolioRef.Some? ==> PortfolioFile in files && files[PortfolioFile] == doc.portfolioRef.value)
  }

  predicate Belongs(doc: Bytes, t: Target)
    requires doc.ContextDoc?
  {
    t == ContextFile || (t == MarketFile && doc.marketRef.Some?) || (t == PortfolioFile && doc.portfolioRef.Some?)
  }

  lemma ItemsAre(files: Files, doc: Bytes)
    requires doc.ContextDoc?
    ensures Contradicts(files, doc) <==>
              exists k :: 0 <= k < |Items(doc)| && Items(doc)[k].target in files && !Holds(files, Items(doc)[k])
    ensures Before(files, Items(doc), |Items(doc)|) ==> Presents(files, doc)
    ensures forall k :: 0 <= k < |Items(doc)| ==> Belongs(doc, Items(doc)[k].target)
  {
    var items := Items(doc);
    var n := |items| - 1;
    assert items[n] == Item(ContextFile, doc);
    if doc.marketRef.Some? { assert items[0] == Item(MarketFile, doc.marketRef.value); }
    if doc.portfolioRef.Some? { assert items[n - 1] == Item(PortfolioFile, doc.portfolioRef.value); }
  }

  // ---------------------------------------------------------------- one capture alone

  datatype Outcome = Killed | Conflict | Captured(written: bool)

  class Presentation {
    var files: Files
    var budget: nat

    constructor (files: Files, budget: nat)
      ensures this.files == files && this.budget == budget
    {
      this.files, this.budget := files, budget;
    }

    /** `capture_cabin_context` with no other writer: a conflict with anything already there
        publishes nothing; otherwise it completes the set, wherever earlier attempts stopped. */
    method Capture(doc: Bytes) returns (outcome: Outcome)
      requires doc.ContextDoc? && Complete(files)
      modifies this
      ensures Complete(files) && Grows(old(files), files)
      ensures outcome.Conflict? <==> exists k :: 0 <= k < |Items(doc)| && Items(doc)[k].target in old(files)
                                         && !Holds(old(files), Items(doc)[k])
      ensures outcome.Conflict? ==> files == old(files)
      ensures outcome.Killed? ==> budget == 0
      ensures outcome.Captured? ==> Before(files, Items(doc), |Items(doc)|) && (outcome.written <==> files != old(files))
      ensures outcome.Conflict? <==> Contradicts(old(files), doc)
      ensures outcome.Captured? ==> Presents(files, doc) && forall t :: t in files && t !in old(files) ==> Belongs(doc, t)
    {
      hide Items, Contradicts, Presents, Belongs, Complete;
      var items := Items(doc);
      DistinctTargets(doc);
      ItemsAre(files, doc);
      var existing: seq<bool> := [];
      for i := 0 to |items|
        invariant |existing| == i
        invariant forall k :: 0 <= k < i ==> (existing[k] <==> items[k].target in files)
        invariant forall k :: 0 <= k < i ==> (existing[k] <==> Holds(files, items[k]))
      {
        if items[i].target in files && files[items[i].target] != items[i].payload {
          return Conflict;
        }
        existing := existing + [items[i].target in files];
      }
      var written := false;
      for i := 0 to |items|
        invariant Complete(files) && Grows(old(files), files) && Before(files, items, i)
        invariant forall k :: i <= k < |items| ==> (items[k].target in files <==> existing[k])
        invariant forall k :: i <= k < |items| && existing[k] ==> Holds(files, items[k])
        invariant written <==> files != old(files)
        invariant forall t :: t in files && t !in old(files) ==> Belongs(doc, t)
      {
        if !existing[i] {
          if budget == 0 {
            return Killed;
          }
          budget := budget - 1;
          Linked(files, items, i, doc);
          files := files[items[i].target := items[i].payload];
          written := true;
          assert items[i].target !in old(files);
        }
      }
      ItemsAre(files, doc);
      return Captured(written);
    }
  }

  lemma DistinctTargets(doc: Bytes)
    requires doc.ContextDoc?
    ensures forall i, k :: 0 <= i < k < |Items(doc)| ==> Items(doc)[i].target != Items(doc)[k].target
  {
  }
}
