/** What the trading protocol guarantees over every finite run: any interleaving of any
    number of enable, disable, worker and status processes, with exceptions and kills. */
module TradingSafety {
  import opened Options
  import opened TradingLedger
  import opened TradingProtocol
  import opened TradingInvariant
  import opened TradingPreserved

  // ---------------------------------------------------------------- one worker at a time

  /** At most one worker is past its admission check, and while it holds the worker lock
      the latest control names its session. */
  lemma SingleWorker(run: seq<State>, i: nat, p: nat, q: nat)
    requires IsRun(run) && i < |run|
    requires p in run[i].procs && q in run[i].procs
    requires Working(run[i].procs[p]) && Working(run[i].procs[q])
    ensures p == q
    ensures Current(Controls(run[i].ledger), SessionOf(run[i].procs[p].task))
  {
    EveryState(run, i);
    hide Inv, Held, LocksOk, LedgerOk, OrdersOk;
    Relies(run[i], p);
    if p != q { LocksExclude(run[i], p, q); }
  }

  /** While a worker works, the only control any process can record switches its session off. */
  lemma NoReplacement(run: seq<State>, i: nat, p: nat)
    requires IsRun(run) && i + 1 < |run| && p in run[i].procs && Working(run[i].procs[p])
    requires Controls(run[i + 1].ledger) != Controls(run[i].ledger)
    ensures exists c :: Controls(run[i + 1].ledger) == Controls(run[i].ledger) + [c]
              && !c.enabled && c.session == SessionOf(run[i].procs[p].task)
  {
    var s, s' := run[i], run[i + 1];
    EveryState(run, i);
    EveryState(run, i + 1);
    hide Inv, Held, LocksOk, OrdersOk, LedgerOk, Next, ValidCandidate;
    assert Next(s, s');
    var q, e, purpose := StepAppends(s, s');
    ReadingsOfAppend(s.ledger, e);
    var cs, c := Controls(s.ledger), e.control;
    Relies(s, p);
    RuledLedger(s');
    NoOpeningBeside(s, p, q, e, purpose);
    LatestIsRuled(s'.ledger, s'.retained, cs, c);
  }

  lemma RuledLedger(s: State)
    requires Inv(s)
    ensures LedgerOk(s.ledger, s.retained)
  {
    hide LedgerOk, LocksOk, OrdersOk, ProcsOk;
  }

  lemma LatestIsRuled(ledger: seq<Event>, retained: set<Profile>, cs: seq<Control>, c: Control)
    requires LedgerOk(ledger, retained) && Controls(ledger) == cs + [c] && cs != [] && !c.enabled
    ensures c.session == cs[|cs| - 1].session
  {
    hide ValidLedger, EndsShut;
    assert ControlRule(cs + [c], |cs|);
    assert (cs + [c])[..|cs|] == cs;
  }

  lemma OnlyAppendsWrite(s: State, p: nat, s': State)
    requires p in s.procs
    ensures ControllerStep(s, p, s') ==> s'.ledger == s.ledger
    ensures WorkerStep(s, p, s') ==> s'.ledger == s.ledger
    ensures GateStep(s, p, s') || OtherStep(s, p, s') || Raise(s, p, s') || Killed(s, p, s') ==> s'.ledger == s.ledger
    ensures AppendStep(s, p, s') && s'.ledger != s.ledger ==>
              s.procs[p].pc.Publish? && ValidCandidate(s.procs[p].pc.event, s.procs[p].pc.snapshot, s.retained)
                && s'.ledger == s.ledger + [s.procs[p].pc.event]
  {
    hide ValidCandidate, RunnerEvent, GateOpen, Controls, Held;
  }

  /** A step that writes appends the event of a process at its publication. */
  lemma StepAppends(s: State, s': State) returns (p: nat, e: Event, purpose: Purpose)
    requires Inv(s) && Next(s, s') && s'.ledger != s.ledger
    ensures p in s.procs && s.procs[p].pc == Publish(e, purpose, s.ledger)
    ensures s'.ledger == s.ledger + [e] && ValidCandidate(e, s.ledger, s.retained)
  {
    hide Inv, ValidCandidate, ControllerStep, WorkerStep, GateStep, AppendStep, OtherStep, Raise, Killed;
    p :| p in s.procs && (ProcStep(s, p, s') || Raise(s, p, s') || Killed(s, p, s'));
    OnlyAppendsWrite(s, p, s');
    Relies(s, p);
    e, purpose := s.procs[p].pc.event, s.procs[p].pc.purpose;
  }

  /** While a worker works, no process is at the point of opening a session. */
  lemma NoOpeningBeside(s: State, p: nat, q: nat, e: Event, purpose: Purpose)
    requires Inv(s) && p in s.procs && q in s.procs && Working(s.procs[p])
    requires s.procs[q].pc == Publish(e, purpose, s.ledger) && e.Controlled?
    ensures !e.control.enabled
  {
    WorkerExcludes(s, p);
    hide Inv, Held, LocksOk, OrdersOk, LedgerOk;
    Relies(s, q);
  }

  // ---------------------------------------------------------------- gates close for good

  lemma ControlsOfPrefix(ledger: seq<Event>, longer: seq<Event>)
    requires ledger <= longer
    ensures Controls(ledger) <= Controls(longer)
    decreases |longer|
  {
    if |ledger| < |longer| {
      ControlsOfPrefix(ledger, longer[..|longer| - 1]);
    } else {
      assert ledger == longer;
    }
  }

  lemma NextGrows(s: State, s': State)
    requires Inv(s) && Next(s, s')
    ensures s.ledger <= s'.ledger
  {
    hide Inv, Next, ValidCandidate;
    if s'.ledger != s.ledger { var _, _, _ := StepAppends(s, s'); }
  }

  /** The ledger is append-only over a run. */
  lemma {:induction false} LedgerOnlyGrows(run: seq<State>, i: nat, j: nat)
    requires IsRun(run) && i <= j < |run|
    ensures run[i].ledger <= run[j].ledger
    decreases j
  {
    hide Inv, Next, Init;
    if i < j {
      LedgerOnlyGrows(run, i, j - 1);
      EveryState(run, j - 1);
      assert Next(run[j - 1], run[j - 1 + 1]);
      NextGrows(run[j - 1], run[j]);
    }
  }

  /** A closed session stays closed: its entry gate is not open in any later state of any run. */
  lemma NeverReopens(run: seq<State>, i: nat, j: nat, session: Session)
    requires IsRun(run) && i <= j < |run| && session.Opened?
    requires Shut(Controls(run[i].ledger), session)
    ensures !GateOpen(Controls(run[j].ledger), session)
  {
    var before, after := Controls(run[i].ledger), Controls(run[j].ledger);
    LedgerOnlyGrows(run, i, j);
    ControlsOfPrefix(run[i].ledger, run[j].ledger);
    var n :| 0 <= n < |before| && before[n].session == session && !before[n].enabled;
    assert after[n] == before[n];
    EveryState(run, j);
    hide LocksOk, OrdersOk, ProcsOk, ValidLedger, EndsShut;
    ShutIsClosed(after, session);
  }

  /** A session is switched on by exactly one control, under the operator's action it is named after. */
  lemma OpenedByOne(run: seq<State>, i: nat, m: nat, n: nat)
    requires IsRun(run) && i < |run|
    requires m < |Controls(run[i].ledger)| && n < |Controls(run[i].ledger)|
    requires Controls(run[i].ledger)[m].enabled && Controls(run[i].ledger)[n].enabled
    requires Controls(run[i].ledger)[m].session == Controls(run[i].ledger)[n].session
    ensures m == n
    ensures Controls(run[i].ledger)[m].session.Opened?
    ensures Controls(run[i].ledger)[m].session.action == Controls(run[i].ledger)[m].action
  {
    EveryState(run, i);
    hide LocksOk, OrdersOk, ProcsOk, ValidLedger, EndsShut;
    var cs := Controls(run[i].ledger);
    assert ControlRule(cs, m);
    OpenedOnce(cs, m, n);
  }

  /** The close of a finished session, decided on an earlier read, still meets that session
      open at its publication, is never refused, and so can never switch off a later one. */
  lemma CloseHitsItsOwn(run: seq<State>, i: nat, p: nat, e: Event, why: Closing, snapshot: seq<Event>)
    requires IsRun(run) && i < |run| && p in run[i].procs
    requires run[i].procs[p].pc == Publish(e, ShutGate(why), snapshot)
    ensures snapshot == run[i].ledger && GateOpen(Controls(snapshot), SessionOf(run[i].procs[p].task))
    ensures ValidCandidate(e, snapshot, run[i].retained)
    ensures e.Controlled? && !e.control.enabled && e.control.session == SessionOf(run[i].procs[p].task)
    ensures !Used(Controls(snapshot), e.control.action)
  {
    EveryState(run, i);
    hide Inv, LocksOk, OrdersOk, LedgerOk;
    Relies(run[i], p);
    FitsLedger(run[i], run[i].procs[p], e, ShutGate(why));
  }

  lemma FitsLedger(s: State, me: Proc, e: Event, purpose: Purpose)
    requires LedgerOk(s.ledger, s.retained) && Fact(me, Controls(s.ledger)) && e.Controlled?
    requires Justified(me, e, purpose, Controls(s.ledger))
    ensures !Used(Controls(s.ledger), e.control.action)
  {
    JustifiedFits(me, e, purpose, Controls(s.ledger));
  }

  // ---------------------------------------------------------------- orders against OFF

  /** Once any control has switched a session off, no risk-increasing order of it is sent:
      every such order was sent when the ledger had not reached that control yet. */
  lemma OffStopsIncreases(run: seq<State>, i: nat, n: nat, k: nat)
    requires IsRun(run) && i < |run| && n < |run[i].ledger| && k < |run[i].orders|
    requires run[i].ledger[n].Controlled? && !run[i].ledger[n].control.enabled
    requires run[i].ledger[n].control.session.Opened?
    requires run[i].orders[k].increase && run[i].orders[k].session == run[i].ledger[n].control.session
    ensures run[i].orders[k].after <= n
  {
    var ledger, order := run[i].ledger, run[i].orders[k];
    EveryState(run, i);
    hide LocksOk, ProcsOk, ValidLedger, EndsShut;
    if order.after > n {
      var prefix := ledger[..order.after];
      var cs := Controls(prefix);
      ControlAppears(prefix, n);
      ControlsOfPrefix(prefix, ledger);
      AlternatingPrefix(cs, Controls(ledger));
      ShutIsClosed(cs, order.session);
    }
  }

  lemma {:induction false} ControlAppears(ledger: seq<Event>, n: nat)
    requires n < |ledger| && ledger[n].Controlled?
    ensures exists m :: 0 <= m < |Controls(ledger)| && Controls(ledger)[m] == ledger[n].control
  {
    if n < |ledger| - 1 {
      ControlAppears(ledger[..|ledger| - 1], n);
      var init := Controls(ledger[..|ledger| - 1]);
      var m :| 0 <= m < |init| && init[m] == ledger[n].control;
      assert Controls(ledger)[m] == init[m];
    } else {
      assert Controls(ledger)[|Controls(ledger)| - 1] == ledger[n].control;
    }
  }

  lemma AlternatingPrefix(cs: seq<Control>, longer: seq<Control>)
    requires Alternating(longer) && cs <= longer
    ensures Alternating(cs)
  {
    forall i | 0 <= i < |cs|
      ensures ControlRule(cs, i)
    {
      assert ControlRule(longer, i);
      assert cs[..i] == longer[..i];
    }
  }

  // ---------------------------------------------------------------- statuses and receipts

  /** A terminal status is preceded, in the ledger, by the closing of its session's gate. */
  lemma EndsAfterClosing(run: seq<State>, i: nat, n: nat)
    requires IsRun(run) && i < |run| && n < |run[i].ledger|
    requires run[i].ledger[n].Status? && Terminal(run[i].ledger[n].state)
    ensures Shut(Controls(run[i].ledger[..n]), run[i].ledger[n].session)
  {
    EveryState(run, i);
    hide LocksOk, OrdersOk, ProcsOk, ValidLedger, Alternating;
  }

  /** No other control switches on the session of control `m`. */
  predicate OnlyOpening(cs: seq<Control>, m: nat)
    requires m < |cs|
  {
    forall k :: 0 <= k < |cs| && cs[k].enabled && cs[k].session == cs[m].session ==> k == m
  }

  /** Every status and receipt is bound to the one control of the whole ledger that switched its session on. */
  lemma BoundToItsOpening(run: seq<State>, i: nat, n: nat)
    requires IsRun(run) && i < |run| && n < |run[i].ledger| && !run[i].ledger[n].Controlled?
    ensures exists m :: 0 <= m < |Controls(run[i].ledger)|
              && Binding(Controls(run[i].ledger[..n]), run[i].ledger[n].session) == Some(Controls(run[i].ledger)[m])
              && Controls(run[i].ledger)[m].enabled
              && Controls(run[i].ledger)[m].session == run[i].ledger[n].session
              && OnlyOpening(Controls(run[i].ledger), m)
  {
    var ledger := run[i].ledger;
    var e, early, cs := ledger[n], Controls(ledger[..n]), Controls(ledger);
    EveryState(run, i);
    assert ValidCandidate(e, ledger[..n], run[i].retained);
    hide LocksOk, OrdersOk, ProcsOk, ValidLedger, ValidCandidate, EndsShut;
    BindingIsFirst(early, e.session);
    var m :| 0 <= m < |early| && Binding(early, e.session) == Some(early[m])
      && early[m].enabled && early[m].session == e.session;
    ControlsOfPrefix(ledger[..n], ledger);
    assert cs[m] == early[m];
    forall k | 0 <= k < |cs| && cs[k].enabled && cs[k].session == e.session
      ensures k == m
    {
      OpenedOnce(cs, k, m);
    }
    assert OnlyOpening(cs, m);
  }

  /** Attempts and worker lifecycles obey their rules in every reachable ledger. */
  lemma ReachableLedgersAreValid(run: seq<State>, i: nat, attempt: string, session: Session)
    requires IsRun(run) && i < |run|
    ensures AttemptHistory(Related(run[i].ledger, attempt))
    ensures Lifecycle(States(run[i].ledger, session)) && OpensOnce(States(run[i].ledger, session))
    ensures EndsOnce(States(run[i].ledger, session))
  {
    EveryState(run, i);
    hide LocksOk, OrdersOk, ProcsOk, ValidLedger, Alternating, EndsShut, AttemptHistory;
    AttemptHistories(run[i].ledger, run[i].retained, attempt);
    Lifecycles(run[i].ledger, run[i].retained, session);
  }

  // ---------------------------------------------------------------- no deadlock

  /** Locks are acquired in rank order. */
  lemma RankOrder(pc: Pc)
    ensures Wants(pc).Some? ==> forall l :: l in Held(pc) ==> Rank(l) < Rank(Wants(pc).value)
    ensures Wants(pc).Some? ==> !Halted(pc)
    ensures Held(pc) != {} ==> !Halted(pc)
  {
  }

  /** A live process that is not blocked on a lock has a next step, without raising. */
  lemma CanStep(s: State, p: nat)
    requires Inv(s) && p in s.procs && !Halted(s.procs[p].pc)
    requires Wants(s.procs[p].pc).Some? ==> Wants(s.procs[p].pc).value !in s.locks
    ensures exists s' :: ProcStep(s, p, s')
  {
    hide Inv, LocksOk, OrdersOk, LedgerOk, ValidCandidate, Quiet, Shut;
    Relies(s, p);
    var me := s.procs[p];
    match me.pc
    case Requested => RequestedStep(s, p);
    case WantController => assert ProcStep(s, p, Taking(s, p, Controller, WantRecovery));
    case WantRecovery => assert ProcStep(s, p, Taking(s, p, Ledger, Recovering));
    case Recovering => assert ProcStep(s, p, Dropping(s, p, Ledger, ReadControls));
    case ReadControls => assert ProcStep(s, p, With(s, p, Decide(Controls(s.ledger))));
    case Decide(seen) => DecideStep(s, p, seen);
    case Probing(seen) =>
      var pc := if Latest(seen).Some? && Latest(seen).value.enabled then Unwind({Controller}, Raised) else Retain;
      assert ProcStep(s, p, Dropping(s, p, Worker, pc));
    case Retain =>
      var next := With(s, p, WantAppend(Controlled(OnControl(me.task)), SwitchOn));
      assert ProcStep(s, p, next.(retained := s.retained + {me.task.profile}));
    case WantOff(current) =>
      var pc := WantAppend(Controlled(OffControl(me.task, current)), SwitchOff);
      assert ProcStep(s, p, Taking(s, p, Submission, pc));
    case Launch => assert ProcStep(s, p, With(s, p, WantGate(AfterLaunch)));
    case WantGate(why) => assert ProcStep(s, p, Taking(s, p, Submission, ReadGate(why)));
    case ReadGate(why) => ReadGateStep(s, p, why);
    case LeaveGate(why) =>
      var end := Status(SessionOf(me.task), ModeOf(me), EndState(why));
      assert ProcStep(s, p, Dropping(s, p, Submission, WantAppend(end, RecordEnd(why))));
    case WantAppend(e, purpose) => assert ProcStep(s, p, Taking(s, p, Ledger, ReadLedger(e, purpose)));
    case ReadLedger(e, purpose) => assert ProcStep(s, p, With(s, p, Publish(e, purpose, s.ledger)));
    case Publish(e, purpose, snapshot) => PublishStep(s, p, e, purpose);
    case LeaveLedger(accepted, purpose) =>
      assert ProcStep(s, p, Dropping(s, p, Ledger, Continue(accepted, purpose)));
    case Unwind(held, answer) => UnwindStep(s, p, held, answer);
    case TryInspect => InspectStep(s, p);
    case Inspecting => assert ProcStep(s, p, Dropping(s, p, Worker, Finished(Observed)));
    case _ => WorkerCanStep(s, p);
  }

  lemma RequestedStep(s: State, p: nat)
    requires p in s.procs && s.procs[p].pc.Requested?
    ensures exists s' :: ProcStep(s, p, s')
  {
    var controller := if Operated(s.procs[p].task) then WantController else Finished(Raised);
    var task := s.procs[p].task;
    var pc := if task.Work? then TryWorker else if task.Inspect? then TryInspect else controller;
    assert ProcStep(s, p, With(s, p, pc));
  }

  lemma DecideStep(s: State, p: nat, seen: seq<Control>)
    requires p in s.procs && s.procs[p].pc == Decide(seen) && Operated(s.procs[p].task)
    ensures exists s' :: ProcStep(s, p, s')
  {
    var task := s.procs[p].task;
    if Used(seen, task.action) {
      assert ProcStep(s, p, With(s, p, Unwind({Controller}, RetryAnswer(task, seen))));
    } else if task.Disable? {
      assert ProcStep(s, p, With(s, p, WantOff(Latest(seen))));
    } else if Worker in s.locks {
      assert ProcStep(s, p, With(s, p, Unwind({Controller}, Raised)));
    } else {
      assert ProcStep(s, p, Taking(s, p, Worker, Probing(seen)));
    }
  }

  lemma ReadGateStep(s: State, p: nat, why: Closing)
    requires p in s.procs && s.procs[p].pc == ReadGate(why)
    ensures exists s' :: ProcStep(s, p, s')
  {
    var cs, session := Controls(s.ledger), SessionOf(s.procs[p].task);
    if GateOpen(cs, session) {
      var c := ClosingControl(Latest(cs).value, session);
      assert ProcStep(s, p, With(s, p, WantAppend(Controlled(c), ShutGate(why))));
    } else {
      assert ProcStep(s, p, With(s, p, LeaveGate(why)));
    }
  }

  lemma PublishStep(s: State, p: nat, e: Event, purpose: Purpose)
    requires p in s.procs && s.procs[p].pc == Publish(e, purpose, s.ledger)
    ensures exists s' :: ProcStep(s, p, s')
  {
    hide ValidCandidate;
    if ValidCandidate(e, s.ledger, s.retained) {
      assert ProcStep(s, p, With(s, p, LeaveLedger(true, purpose)).(ledger := s.ledger + [e]));
    } else {
      assert ProcStep(s, p, With(s, p, LeaveLedger(false, purpose)));
    }
  }

  lemma UnwindStep(s: State, p: nat, held: set<Lock>, answer: Answer)
    requires p in s.procs && s.procs[p].pc == Unwind(held, answer)
    ensures exists s' :: ProcStep(s, p, s')
  {
    if held == {} {
      assert ProcStep(s, p, With(s, p, Finished(answer)));
    } else {
      var l :| l in held;
      var s' := Dropping(s, p, l, Unwind(held - {l}, answer));
      assert Drop(s, p, l, Unwind(held - {l}, answer), s');
      assert ProcStep(s, p, s');
    }
  }

  lemma InspectStep(s: State, p: nat)
    requires p in s.procs && s.procs[p].pc.TryInspect?
    ensures exists s' :: ProcStep(s, p, s')
  {
    if Worker in s.locks { assert ProcStep(s, p, With(s, p, Finished(Observed))); }
    else { assert ProcStep(s, p, Taking(s, p, Worker, Inspecting)); }
  }

  lemma WorkerCanStep(s: State, p: nat)
    requires p in s.procs
    requires s.procs[p].pc in {TryWorker, Admission, Startup, Run, WantEntry, EntryCheck, LeaveEntry} || s.procs[p].pc.Mutate?
    requires s.procs[p].pc.WantEntry? ==> Submission !in s.locks
    ensures exists s' :: ProcStep(s, p, s')
  {
    var me, cs := s.procs[p], Controls(s.ledger);
    match me.pc
    case TryWorker =>
      if Worker in s.locks { assert ProcStep(s, p, With(s, p, Finished(Raised))); }
      else { assert ProcStep(s, p, Taking(s, p, Worker, Admission)); }
    case Admission =>
      if GateOpen(cs, SessionOf(me.task)) { assert ProcStep(s, p, Admitted(s, p, Latest(cs).value)); }
      else { assert ProcStep(s, p, With(s, p, Unwind({Worker}, Raised))); }
    case Startup => assert ProcStep(s, p, With(s, p, WantGate(AfterStartup)));
    case Run => assert ProcStep(s, p, With(s, p, WantEntry));
    case WantEntry => assert ProcStep(s, p, Taking(s, p, Submission, EntryCheck));
    case EntryCheck => assert ProcStep(s, p, With(s, p, LeaveEntry));
    case Mutate(increase) => assert ProcStep(s, p, Ordered(s, p, increase, LeaveEntry));
    case LeaveEntry => assert ProcStep(s, p, Dropping(s, p, Submission, Run));
  }

  /** No deadlock: while any process is unfinished, some process can take a step of its own. */
  lemma {:induction false} NoDeadlock(run: seq<State>, i: nat, p: nat)
    requires IsRun(run) && i < |run| && p in run[i].procs && !Halted(run[i].procs[p].pc)
    ensures exists q, s' :: q in run[i].procs && ProcStep(run[i], q, s')
    decreases 4 - (if Wants(run[i].procs[p].pc).Some? then Rank(Wants(run[i].procs[p].pc).value) else 4)
  {
    var s := run[i];
    EveryState(run, i);
    hide Inv, OrdersOk, LedgerOk, Fact, ProcStep, Held, Wants;
    Relies(s, p);
    var wanted := Wants(s.procs[p].pc);
    if wanted.Some? && wanted.value in s.locks {
      var q := s.locks[wanted.value];
      RankOrder(s.procs[q].pc);
      NoDeadlock(run, i, q);
    } else {
      CanStep(s, p);
    }
  }
}
