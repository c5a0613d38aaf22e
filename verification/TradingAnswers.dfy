/** What an operation of the trading protocol has done by the time it ends: an answer other than an
    exception means that the control or the status it names is in the ledger, over every run. */
module TradingAnswers {
  import opened Options
  import opened TradingLedger
  import opened TradingProtocol
  import opened TradingInvariant
  import opened TradingPreserved
  import opened TradingSafety

  /** The request's own control has opened its session. */
  predicate OpenedFor(cs: seq<Control>, action: Action, profile: Profile, operator: string) {
    exists m :: 0 <= m < |cs| && cs[m] == Control(action, Opened(action, profile), Some(profile), true, operator)
  }

  /** Control m is the OFF control of this request: it names the session and profile of the control before it. */
  predicate OffAt(cs: seq<Control>, m: nat, action: Action, operator: string)
    requires m < |cs|
  {
    && cs[m].action == action && cs[m].operator == operator && !cs[m].enabled
    && cs[m].session == (if m == 0 then Vacant else cs[m - 1].session)
    && cs[m].profile == (if m == 0 then None else cs[m - 1].profile)
  }

  predicate ShutFor(cs: seq<Control>, action: Action, operator: string) {
    exists m: nat :: m < |cs| && OffAt(cs, m, action, operator)
  }

  /** The status a worker ends with: after a failed start, a failed run, or a run that returned. */
  predicate EndStatus(e: Event, session: Session, mode: Mode, why: Closing) {
    && e.Status? && e.session == session && e.mode == mode
    && (why.AfterStop? ==> e.state == Stopped)
    && (why.AfterRun? ==> e.state == WorkerState.Failed)
    && (why.AfterStartup? ==> e.state == StartFailed)
  }

  predicate Stated(ledger: seq<Event>, session: Session, mode: Mode, why: Closing) {
    exists n :: 0 <= n < |ledger| && EndStatus(ledger[n], session, mode, why)
  }

  predicate AttemptOf(e: Event, session: Session) {
    e.Guard? && e.session == session && e.receipt.outcome == Attempt
  }

  predicate Intended(ledger: seq<Event>, session: Session) {
    exists n :: 0 <= n < |ledger| && AttemptOf(ledger[n], session)
  }

  /** What an answer promises of the ledger. */
  predicate Answered(me: Proc, answer: Answer, ledger: seq<Event>) {
    match answer
    case Raised => true
    case Recorded => !me.task.Work? && !me.task.Inspect? && HasRecorded(me.task, Controls(ledger))
    case Repeated => !me.task.Work? && !me.task.Inspect? && HasRecorded(me.task, Controls(ledger))
    case Ended(why) => me.task.Work? && !why.AfterLaunch? && Stated(ledger, SessionOf(me.task), ModeOf(me), why)
    case Observed => me.task.Inspect?
  }

  predicate HasRecorded(task: Task, cs: seq<Control>) {
    match task
    case Enable(action, profile, operator) => OpenedFor(cs, action, profile, operator)
    case Disable(action, operator) => ShutFor(cs, action, operator)
    case _ => true
  }

  /** What a process is about to append, where the invariant leaves it open. */
  predicate Meant(me: Proc, e: Event, purpose: Purpose) {
    && (purpose.Intend? ==> AttemptOf(e, SessionOf(me.task)))
    && (purpose.RecordEnd? ==>
          && EndStatus(e, SessionOf(me.task), ModeOf(me), purpose.why)
          && (purpose.why.AfterLaunch? || me.task.Work?))
  }

  /** What an accepted append has made of the ledger. */
  predicate Achieved(me: Proc, purpose: Purpose, ledger: seq<Event>) {
    match purpose
    case SwitchOn => me.task.Enable? && HasRecorded(me.task, Controls(ledger))
    case SwitchOff => me.task.Disable? && HasRecorded(me.task, Controls(ledger))
    case RecordEnd(why) => (why.AfterLaunch? || me.task.Work?) && Stated(ledger, SessionOf(me.task), ModeOf(me), why)
    case Intend(_) => Intended(ledger, SessionOf(me.task))
    case _ => true
  }

  predicate Kept(me: Proc, ledger: seq<Event>) {
    match me.pc
    case Unwind(_, answer) => Answered(me, answer, ledger)
    case Finished(answer) => Answered(me, answer, ledger)
    case Launch => me.task.Enable? && HasRecorded(me.task, Controls(ledger))
    case WantAppend(e, purpose) => Meant(me, e, purpose)
    case ReadLedger(e, purpose) => Meant(me, e, purpose)
    case Publish(e, purpose, _) => Meant(me, e, purpose)
    case LeaveLedger(accepted, purpose) => accepted ==> Achieved(me, purpose, ledger)
    case Mutate(_) => Intended(ledger, SessionOf(me.task))
    case TryInspect => me.task.Inspect?
    case Inspecting => me.task.Inspect?
    case WantGate(why) => why.AfterLaunch? || me.task.Work?
    case ReadGate(why) => why.AfterLaunch? || me.task.Work?
    case LeaveGate(why) => why.AfterLaunch? || me.task.Work?
    case _ => true
  }

  /** Every order was sent after an attempt of its session had been recorded. */
  ghost predicate OrdersIntended(ledger: seq<Event>, orders: seq<Order>) {
    forall k :: 0 <= k < |orders| ==>
      orders[k].after <= |ledger| && Intended(ledger[..orders[k].after], orders[k].session)
  }

  ghost predicate AllKept(s: State) {
    OrdersIntended(s.ledger, s.orders) && forall p :: p in s.procs ==> Kept(s.procs[p], s.ledger)
  }

  // ---------------------------------------------------------------- growth

  lemma RecordedGrows(task: Task, cs: seq<Control>, more: seq<Control>)
    requires HasRecorded(task, cs) && cs <= more
    ensures HasRecorded(task, more)
  {
    match task
    case Enable(action, profile, operator) =>
      var m :| 0 <= m < |cs| && cs[m] == Control(action, Opened(action, profile), Some(profile), true, operator);
      assert more[m] == cs[m];
    case Disable(action, operator) =>
      var m: nat :| m < |cs| && OffAt(cs, m, action, operator);
      assert OffAt(more, m, action, operator);
    case _ =>
  }

  lemma StatedGrows(ledger: seq<Event>, more: seq<Event>, session: Session, mode: Mode, why: Closing)
    requires ledger <= more
    ensures Stated(ledger, session, mode, why) ==> Stated(more, session, mode, why)
    ensures Intended(ledger, session) ==> Intended(more, session)
  {
    if Stated(ledger, session, mode, why) {
      var n :| 0 <= n < |ledger| && EndStatus(ledger[n], session, mode, why);
      assert more[n] == ledger[n];
    }
    if Intended(ledger, session) {
      var n :| 0 <= n < |ledger| && AttemptOf(ledger[n], session);
      assert more[n] == ledger[n];
    }
  }

  lemma KeptGrows(me: Proc, ledger: seq<Event>, more: seq<Event>)
    requires Kept(me, ledger) && ledger <= more
    ensures Kept(me, more)
  {
    hide HasRecorded, Stated, Intended, AttemptOf, EndStatus, Controls;
    ControlsOfPrefix(ledger, more);
    if HasRecorded(me.task, Controls(ledger)) { RecordedGrows(me.task, Controls(ledger), Controls(more)); }
    forall why
      ensures Stated(ledger, SessionOf(me.task), ModeOf(me), why) ==> Stated(more, SessionOf(me.task), ModeOf(me), why)
      ensures Intended(ledger, SessionOf(me.task)) ==> Intended(more, SessionOf(me.task))
    {
      StatedGrows(ledger, more, SessionOf(me.task), ModeOf(me), why);
    }
    StatedGrows(ledger, more, SessionOf(me.task), ModeOf(me), AfterStop);
  }

  lemma OrdersGrow(ledger: seq<Event>, more: seq<Event>, orders: seq<Order>)
    requires OrdersIntended(ledger, orders) && ledger <= more
    ensures OrdersIntended(more, orders)
  {
    forall k | 0 <= k < |orders|
      ensures orders[k].after <= |more| && Intended(more[..orders[k].after], orders[k].session)
    {
      assert more[..orders[k].after] == ledger[..orders[k].after];
    }
  }

  // ---------------------------------------------------------------- steps

  /** A retry is only answered for the control that its own request would have recorded. */
  lemma RepeatedIsRecorded(task: Task, seen: seq<Control>, cs: seq<Control>)
    requires Alternating(cs) && seen <= cs && RetryAnswer(task, seen) == Repeated
    ensures HasRecorded(task, cs)
  {
    var m := FirstIndex(seen, task.action);
    assert cs[m] == seen[m] && ControlRule(cs, m);
    if m > 0 { assert Latest(cs[..m]) == Some(cs[m - 1]); }
    if task.Disable? { assert OffAt(cs, m, task.action, task.operator); }
  }

  lemma {:induction false} FirstIndex(controls: seq<Control>, action: Action) returns (m: nat)
    requires FirstUse(controls, action).Some?
    ensures m < |controls| && FirstUse(controls, action) == Some(controls[m]) && controls[m].action == action
  {
    if controls[0].action == action {
      m := 0;
    } else {
      m := FirstIndex(controls[1..], action);
      m := m + 1;
    }
  }

  lemma ControllerKept(s: State, p: nat, s': State)
    requires Inv(s) && AllKept(s) && p in s.procs && ControllerStep(s, p, s')
    ensures Kept(s'.procs[p], s'.ledger)
  {
    hide Inv, LocksOk, OrdersOk, HasRecorded, Held, ValidLedger, EndsShut, Alternating;
    Relies(s, p);
    if s.procs[p].pc.Decide? {
      var seen := s.procs[p].pc.seen;
      if RetryAnswer(s.procs[p].task, seen) == Repeated {
        RepeatedIsRecorded(s.procs[p].task, seen, Controls(s.ledger));
      }
      RetryShape(s.procs[p].task, seen);
    }
  }

  lemma RetryShape(task: Task, seen: seq<Control>)
    ensures RetryAnswer(task, seen) in {Repeated, Raised}
    ensures RetryAnswer(task, seen) == Repeated ==> task.Enable? || task.Disable?
  {
  }

  lemma WorkerKept(s: State, p: nat, s': State)
    requires Inv(s) && AllKept(s) && p in s.procs && WorkerStep(s, p, s')
    ensures Kept(s'.procs[p], s'.ledger) && OrdersIntended(s'.ledger, s'.orders)
  {
    hide Inv, LocksOk, OrdersOk, HasRecorded, LedgerOk, Held, Intended, Controls, GateOpen;
    Relies(s, p);
    assert Kept(s.procs[p], s.ledger);
    assert s.ledger[..|s.ledger|] == s.ledger;
    if s.procs[p].pc.Mutate? {
      OrderKept(s.ledger, s.orders, Order(SessionOf(s.procs[p].task), s.procs[p].pc.increase, |s.ledger|));
    }
  }

  lemma OrderKept(ledger: seq<Event>, orders: seq<Order>, order: Order)
    requires OrdersIntended(ledger, orders) && order.after == |ledger| && Intended(ledger, order.session)
    ensures OrdersIntended(ledger, orders + [order])
  {
    hide Intended;
    assert ledger[..|ledger|] == ledger;
  }

  lemma GateKept(s: State, p: nat, s': State)
    requires Inv(s) && AllKept(s) && p in s.procs && GateStep(s, p, s')
    ensures Kept(s'.procs[p], s'.ledger)
  {
    hide Inv, LocksOk, OrdersOk, LedgerOk, Held, Controls, GateOpen;
    Relies(s, p);
    assert Kept(s.procs[p], s.ledger);
  }

  lemma OtherKept(s: State, p: nat, s': State)
    requires Inv(s) && AllKept(s) && p in s.procs && (OtherStep(s, p, s') || Raise(s, p, s') || Killed(s, p, s'))
    ensures Kept(s'.procs[p], s'.ledger)
  {
    hide Inv, HasRecorded, Stated, Held, Controls;
    assert Kept(s.procs[p], s.ledger);
  }

  lemma AppendKept(s: State, p: nat, s': State)
    requires Inv(s) && AllKept(s) && p in s.procs && AppendStep(s, p, s')
    ensures Kept(s'.procs[p], s'.ledger)
  {
    hide Inv, LocksOk, OrdersOk, LedgerOk, HasRecorded, Stated, Intended, Held, Controls, ValidCandidate, AttemptOf, EndStatus;
    Relies(s, p);
    var me := s.procs[p];
    assert Kept(me, s.ledger);
    match me.pc
    case Publish(e, purpose, snapshot) =>
      if ValidCandidate(e, snapshot, s.retained) { PublishAchieves(me, e, purpose, s.ledger); }
    case _ =>
  }

  /** A published event achieves what it was published for. */
  lemma PublishAchieves(me: Proc, e: Event, purpose: Purpose, ledger: seq<Event>)
    requires Fact(me, Controls(ledger)) && Meant(me, e, purpose) && me.pc == Publish(e, purpose, ledger)
    ensures Achieved(me, purpose, ledger + [e])
  {
    var cs, longer := Controls(ledger), ledger + [e];
    ReadingsOfAppend(ledger, e);
    assert longer[|ledger|] == e;
    match purpose
    case SwitchOn => assert (cs + [e.control])[|cs|] == e.control;
    case SwitchOff =>
      if |cs| > 0 { assert (cs + [e.control])[|cs| - 1] == cs[|cs| - 1]; }
      assert OffAt(cs + [e.control], |cs|, me.task.action, me.task.operator);
    case _ =>
  }

  lemma NextKept(s: State, s': State)
    requires Inv(s) && AllKept(s) && Next(s, s')
    ensures AllKept(s')
  {
    hide Inv, ControllerStep, WorkerStep, GateStep, AppendStep, OtherStep, Kept, OrdersIntended;
    NextGrows(s, s');
    OrdersGrow(s.ledger, s'.ledger, s.orders);
    if p, task :| Arrives(s, p, task, s') {
      assert Kept(Proc(task, Requested, None), s.ledger) by { NewcomerKept(task, s.ledger); }
    } else {
      var p :| p in s.procs && (ProcStep(s, p, s') || Raise(s, p, s') || Killed(s, p, s'));
      if WorkerStep(s, p, s') { WorkerKept(s, p, s'); }
      else if ControllerStep(s, p, s') { ControllerKept(s, p, s'); }
      else if GateStep(s, p, s') { GateKept(s, p, s'); }
      else if AppendStep(s, p, s') { AppendKept(s, p, s'); }
      else { OtherKept(s, p, s'); }
      OnlyOneMoves(s, p, s');
      forall q | q in s'.procs
        ensures Kept(s'.procs[q], s'.ledger)
      {
        if q != p {
          if q in s.procs { KeptGrows(s.procs[q], s.ledger, s'.ledger); } else { NewcomerKept(s'.procs[q].task, s'.ledger); }
        }
      }
    }
  }

  lemma NewcomerKept(task: Task, ledger: seq<Event>)
    ensures Kept(Proc(task, Requested, None), ledger)
  {
  }

  /** A step moves its own process, and may start one; only a worker sends orders. */
  lemma OnlyOneMoves(s: State, p: nat, s': State)
    requires p in s.procs && (ProcStep(s, p, s') || Raise(s, p, s') || Killed(s, p, s'))
    ensures Moved(s, p, s') && (!WorkerStep(s, p, s') ==> s'.orders == s.orders)
  {
    hide ControllerStep, WorkerStep, GateStep, AppendStep, OtherStep, Held;
    ControllerMoves(s, p, s');
    WorkerMoves(s, p, s');
    GateMoves(s, p, s');
    AppendMoves(s, p, s');
    OtherMoves(s, p, s');
  }

  ghost predicate Moved(s: State, p: nat, s': State)
    requires p in s.procs
  {
    && (forall q :: q in s.procs && q != p ==> q in s'.procs && s'.procs[q] == s.procs[q])
    && (forall q :: q in s'.procs && q !in s.procs ==> s'.procs[q] == Proc(s'.procs[q].task, Requested, None))
    && p in s'.procs && s'.procs[p].task == s.procs[p].task
  }

  lemma ControllerMoves(s: State, p: nat, s': State)
    requires p in s.procs
    ensures ControllerStep(s, p, s') ==> Moved(s, p, s') && s'.orders == s.orders
  {
    hide Controls, RetryAnswer, Used, Latest, SessionOf, OffControl, OnControl, Moved;
    if s.procs[p].pc.Launch? { LaunchMoves(s, p, s'); } else if ControllerStep(s, p, s') { StaysMoved(s, p, s'); }
  }

  lemma StaysMoved(s: State, p: nat, s': State)
    requires p in s.procs && p in s'.procs && s'.procs == s.procs[p := s'.procs[p]] && s'.procs[p].task == s.procs[p].task
    ensures Moved(s, p, s')
  {
  }

  lemma LaunchMoves(s: State, p: nat, s': State)
    requires p in s.procs && s.procs[p].pc.Launch?
    ensures ControllerStep(s, p, s') ==> Moved(s, p, s') && s'.orders == s.orders
  {
  }

  lemma WorkerMoves(s: State, p: nat, s': State)
    requires p in s.procs
    ensures WorkerStep(s, p, s') ==> Moved(s, p, s')
  {
    hide Controls, GateOpen, RunnerEvent, Latest, SessionOf, ModeOf;
  }

  lemma GateMoves(s: State, p: nat, s': State)
    requires p in s.procs
    ensures GateStep(s, p, s') ==> Moved(s, p, s') && s'.orders == s.orders
  {
    hide Controls, GateOpen, SessionOf, ModeOf;
  }

  lemma AppendMoves(s: State, p: nat, s': State)
    requires p in s.procs
    ensures AppendStep(s, p, s') ==> Moved(s, p, s') && s'.orders == s.orders
  {
    hide ValidCandidate, Continue;
  }

  lemma OtherMoves(s: State, p: nat, s': State)
    requires p in s.procs
    ensures OtherStep(s, p, s') ==> Moved(s, p, s') && s'.orders == s.orders
  {
  }

  // ---------------------------------------------------------------- every run

  lemma {:induction false} EveryAnswer(run: seq<State>, i: nat)
    requires IsRun(run) && i < |run|
    ensures AllKept(run[i])
  {
    hide Inv, Next, Kept;
    if i > 0 {
      EveryAnswer(run, i - 1);
      EveryState(run, i - 1);
      assert Next(run[i - 1], run[i - 1 + 1]);
      NextKept(run[i - 1], run[i]);
    }
  }

  /** In every run, a disable that ended without an exception has its OFF control in the ledger, the
      only control of its action, at which no session's entry gate is open; and if the action was
      unused in some earlier state, the control was recorded after that state. */
  lemma DisableRecords(run: seq<State>, i: nat, j: nat, p: nat, action: Action, operator: string)
    requires IsRun(run) && i <= j < |run| && p in run[j].procs && run[j].procs[p].task == Disable(action, operator)
    requires run[j].procs[p].pc.Finished? && run[j].procs[p].pc.answer != Raised
    requires forall c :: c in Controls(run[i].ledger) ==> c.action != action
    ensures exists m: nat :: |Controls(run[i].ledger)| <= m < |Controls(run[j].ledger)|
              && OffAt(Controls(run[j].ledger), m, action, operator)
              && OnlyUse(Controls(run[j].ledger), m)
              && AllShut(Controls(run[j].ledger)[..m + 1])
  {
    hide IsRun, Inv, AllKept, Kept, HasRecorded, Controls, AllShut, Alternating;
    EveryAnswer(run, j);
    EveryState(run, j);
    var before, cs := Controls(run[i].ledger), Controls(run[j].ledger);
    FinishedHas(run[j], p);
    var m: nat := OffIs(cs, action, operator);
    LedgerOnlyGrows(run, i, j);
    ControlsOfPrefix(run[i].ledger, run[j].ledger);
    assert forall k :: 0 <= k < |before| ==> before[k] in before && cs[k] == before[k];
    OnlyUses(run[j], m);
  }

  /** A process that ended without an exception has recorded what its task is for. */
  lemma FinishedHas(s: State, p: nat)
    requires AllKept(s) && p in s.procs && s.procs[p].pc.Finished? && s.procs[p].pc.answer != Raised
    ensures s.procs[p].task.Disable? || s.procs[p].task.Enable? ==> HasRecorded(s.procs[p].task, Controls(s.ledger))
  {
    hide HasRecorded, Controls, OrdersIntended, Stated;
    assert Kept(s.procs[p], s.ledger);
  }

  lemma OffIs(cs: seq<Control>, action: Action, operator: string) returns (m: nat)
    requires HasRecorded(Disable(action, operator), cs)
    ensures m < |cs| && OffAt(cs, m, action, operator) && AllShut(cs[..m + 1])
  {
    m :| m < |cs| && OffAt(cs, m, action, operator);
  }

  lemma OnIs(cs: seq<Control>, action: Action, profile: Profile, operator: string) returns (m: nat)
    requires HasRecorded(Enable(action, profile, operator), cs)
    ensures m < |cs| && cs[m] == Control(action, Opened(action, profile), Some(profile), true, operator)
    ensures GateOpen(cs[..m + 1], Opened(action, profile))
  {
    m :| 0 <= m < |cs| && cs[m] == Control(action, Opened(action, profile), Some(profile), true, operator);
  }

  lemma OnlyUses(s: State, m: nat)
    requires Inv(s) && m < |Controls(s.ledger)|
    ensures OnlyUse(Controls(s.ledger), m)
  {
    hide LocksOk, OrdersOk, ProcsOk, ValidLedger, EndsShut, Controls;
  }

  /** No session's entry gate is open. */
  ghost predicate AllShut(cs: seq<Control>) {
    forall session: Session :: !GateOpen(cs, session)
  }

  /** No other control has the action of control m. */
  predicate OnlyUse(cs: seq<Control>, m: nat)
    requires m < |cs|
  {
    forall k :: 0 <= k < |cs| && k != m ==> cs[k].action != cs[m].action
  }

  /** Likewise an enable that ended without an exception has the one control that opens its session. */
  lemma EnableRecords(run: seq<State>, i: nat, j: nat, p: nat, action: Action, profile: Profile, operator: string)
    requires IsRun(run) && i <= j < |run| && p in run[j].procs && run[j].procs[p].task == Enable(action, profile, operator)
    requires run[j].procs[p].pc.Finished? && run[j].procs[p].pc.answer != Raised
    requires forall c :: c in Controls(run[i].ledger) ==> c.action != action
    ensures exists m: nat :: |Controls(run[i].ledger)| <= m < |Controls(run[j].ledger)|
              && Controls(run[j].ledger)[m] == Control(action, Opened(action, profile), Some(profile), true, operator)
              && OnlyUse(Controls(run[j].ledger), m)
              && GateOpen(Controls(run[j].ledger)[..m + 1], Opened(action, profile))
  {
    hide IsRun, Inv, AllKept, Kept, HasRecorded, Controls, GateOpen, Alternating;
    EveryAnswer(run, j);
    EveryState(run, j);
    var before, cs := Controls(run[i].ledger), Controls(run[j].ledger);
    FinishedHas(run[j], p);
    var m: nat := OnIs(cs, action, profile, operator);
    LedgerOnlyGrows(run, i, j);
    ControlsOfPrefix(run[i].ledger, run[j].ledger);
    assert forall k :: 0 <= k < |before| ==> before[k] in before && cs[k] == before[k];
    OnlyUses(run[j], m);
  }

  /** A worker that ended without an exception has recorded its terminal status, after its session's
      entry gate had been closed. */
  lemma WorkerRecords(run: seq<State>, i: nat, p: nat, session: Session)
    requires IsRun(run) && i < |run| && p in run[i].procs && run[i].procs[p].task == Work(session)
    requires run[i].procs[p].pc.Finished? && run[i].procs[p].pc.answer != Raised
    ensures run[i].procs[p].pc.answer.Ended?
    ensures exists n :: 0 <= n < |run[i].ledger|
              && EndStatus(run[i].ledger[n], session, ModeOf(run[i].procs[p]), run[i].procs[p].pc.answer.why)
              && Terminal(run[i].ledger[n].state) && Shut(Controls(run[i].ledger[..n]), session)
  {
    EveryAnswer(run, i);
    assert Kept(run[i].procs[p], run[i].ledger);
    hide OrdersIntended, Controls, Shut;
    var why := run[i].procs[p].pc.answer.why;
    var n :| 0 <= n < |run[i].ledger| && EndStatus(run[i].ledger[n], session, ModeOf(run[i].procs[p]), why);
    EndsAfterClosing(run, i, n);
  }

  /** No order of a session is sent before an attempt of it has been recorded. */
  lemma IntentFirst(run: seq<State>, i: nat, k: nat)
    requires IsRun(run) && i < |run| && k < |run[i].orders|
    ensures run[i].orders[k].after <= |run[i].ledger|
    ensures exists n :: 0 <= n < run[i].orders[k].after && AttemptOf(run[i].ledger[n], run[i].orders[k].session)
  {
    EveryAnswer(run, i);
    hide Kept;
    var order := run[i].orders[k];
    var early := run[i].ledger[..order.after];
    var n :| 0 <= n < |early| && AttemptOf(early[n], order.session);
    assert run[i].ledger[n] == early[n];
  }
}
