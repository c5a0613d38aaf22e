/** What an operation of the trading protocol does when nothing stands in its way: from a state any
    run can reach, run alone and without exceptions, it never blocks, ends after a fixed number of its
    own steps, and leaves exactly the stated events behind. */
module TradingProgress {
  import opened Options
  import opened TradingLedger
  import opened TradingProtocol
  import opened TradingInvariant
  import opened TradingPreserved
  import opened TradingSafety

  /** From position i on only p moves, without raising. */
  ghost predicate AloneFrom(run: seq<State>, i: nat, p: nat) {
    && i < |run| && p in run[i].procs
    && forall k: nat :: i <= k < |run| - 1 ==> Steps(run, k, p)
  }

  ghost predicate Steps(run: seq<State>, k: nat, p: nat)
    requires k + 1 < |run|
  {
    p in run[k].procs && ProcStep(run[k], p, run[k + 1])
  }

  /** Nobody but p, or a worker on its own lock, holds any lock. */
  predicate Unobstructed(s: State, p: nat) {
    forall l :: l in s.locks ==> l.Worker? || s.locks[l] == p
  }

  lemma StepIsNext(s: State, p: nat, s': State)
    requires Inv(s) && p in s.procs && ProcStep(s, p, s')
    ensures Inv(s')
  {
    hide Inv, ProcStep;
    NextKeeps(s, s');
  }

  /** The process has a step of its own. */
  ghost predicate CanMove(s: State, p: nat) {
    p in s.procs && exists s' :: ProcStep(s, p, s')
  }

  /** An unobstructed process is not blocked. */
  lemma NotBlocked(s: State, p: nat)
    requires Inv(s) && p in s.procs && Unobstructed(s, p) && !Halted(s.procs[p].pc)
    ensures CanMove(s, p)
  {
    hide Inv, OrdersOk, LedgerOk, Fact, ProcStep;
    Relies(s, p);
    RankOrder(s.procs[p].pc);
    CanStep(s, p);
  }

  /** Which part of the program a process is in. */
  predicate Controlling(pc: Pc) {
    || pc.WantController? || pc.WantRecovery? || pc.Recovering? || pc.ReadControls? || pc.Decide? || pc.Probing? || pc.Retain?
    || pc.WantOff? || pc.Launch?
  }

  predicate Appending(pc: Pc) {
    pc.WantAppend? || pc.ReadLedger? || pc.Publish? || pc.LeaveLedger?
  }

  predicate Gating(pc: Pc) {
    pc.WantGate? || pc.ReadGate? || pc.LeaveGate?
  }

  predicate AtEdge(pc: Pc) {
    pc.Requested? || pc.Unwind?
  }

  lemma PartOf(s: State, p: nat, s': State)
    requires p in s.procs && ProcStep(s, p, s')
    ensures Controlling(s.procs[p].pc) ==> ControllerStep(s, p, s')
    ensures Appending(s.procs[p].pc) ==> AppendStep(s, p, s')
    ensures Gating(s.procs[p].pc) ==> GateStep(s, p, s')
    ensures AtEdge(s.procs[p].pc) ==> OtherStep(s, p, s')
    ensures !s.procs[p].pc.Finished? && !s.procs[p].pc.Dead?
  {
    hide Controls, GateOpen, RunnerEvent, ValidCandidate, Held, RetryAnswer, Used, Latest, SessionOf, ModeOf, Continue;
  }

  /** The one move of a process inside an append. */
  lemma AppendMove(s: State, p: nat, s': State)
    requires p in s.procs && AppendStep(s, p, s')
    ensures match s.procs[p].pc
            case WantAppend(e, purpose) => s' == Taking(s, p, Ledger, ReadLedger(e, purpose))
            case ReadLedger(e, purpose) => s' == With(s, p, Publish(e, purpose, s.ledger))
            case Publish(e, purpose, snapshot) =>
              snapshot == s.ledger ==>
                s' == if ValidCandidate(e, s.ledger, s.retained)
                      then With(s, p, LeaveLedger(true, purpose)).(ledger := s.ledger + [e])
                      else With(s, p, LeaveLedger(false, purpose))
            case LeaveLedger(accepted, purpose) => s' == Dropping(s, p, Ledger, Continue(accepted, purpose))
            case _ => false
  {
    hide ValidCandidate, Continue;
  }

  /** The step of a process obstructs neither it nor its task. */
  ghost predicate StaysFree(s: State, p: nat, s': State)
    requires p in s.procs
  {
    && p in s'.procs && s'.procs[p].task == s.procs[p].task && (s.procs[p].profile.Some? ==> s'.procs[p].profile == s.procs[p].profile)
    && (Unobstructed(s, p) ==> Unobstructed(s', p)) && (OwnLocks(s, p) ==> OwnLocks(s', p))
  }

  lemma ControllerStaysFree(s: State, p: nat, s': State)
    requires p in s.procs && ControllerStep(s, p, s')
    ensures StaysFree(s, p, s')
  {
    hide Controls, RetryAnswer, Used, Latest, SessionOf, OffControl, OnControl;
  }

  lemma AppendStaysFree(s: State, p: nat, s': State)
    requires p in s.procs && AppendStep(s, p, s')
    ensures StaysFree(s, p, s')
  {
    hide ValidCandidate, Continue;
  }

  lemma GateStaysFree(s: State, p: nat, s': State)
    requires p in s.procs && GateStep(s, p, s')
    ensures StaysFree(s, p, s')
  {
    hide Controls, GateOpen, SessionOf, ModeOf;
  }

  lemma OtherStaysFree(s: State, p: nat, s': State)
    requires p in s.procs && OtherStep(s, p, s')
    ensures StaysFree(s, p, s')
  {
  }

  /** Nobody but p holds any lock. */
  predicate OwnLocks(s: State, p: nat) {
    forall l :: l in s.locks ==> s.locks[l] == p
  }

  // ---------------------------------------------------------------- disable_trading

  /** The OFF control of a request that finds these controls. */
  function Off(controls: seq<Control>, action: Action, operator: string): Event {
    var n := |controls| - 1;
    Controlled(Control(action, if n < 0 then Vacant else controls[n].session, if n < 0 then None else controls[n].profile,
                       false, operator))
  }

  function OffLeft(pc: Pc): nat {
    match pc
    case Requested => 14
    case WantController => 13
    case WantRecovery => 12
    case Recovering => 11
    case ReadControls => 10
    case Decide(_) => 9
    case WantOff(_) => 8
    case WantAppend(_, _) => 7
    case ReadLedger(_, _) => 6
    case Publish(_, _, _) => 5
    case LeaveLedger(_, _) => 4
    case Unwind(held, _) => |held| + 1
    case _ => 0
  }

  predicate OffPoint(pc: Pc, ledger: seq<Event>, before: seq<Event>, action: Action, operator: string) {
    match pc
    case Requested => ledger == before
    case WantController => ledger == before
    case WantRecovery => ledger == before
    case Recovering => ledger == before
    case ReadControls => ledger == before
    case Decide(seen) => ledger == before && seen == Controls(before)
    case WantOff(current) => ledger == before
    case WantAppend(_, purpose) => ledger == before && purpose.SwitchOff?
    case ReadLedger(_, purpose) => ledger == before && purpose.SwitchOff?
    case Publish(_, purpose, _) => ledger == before && purpose.SwitchOff?
    case LeaveLedger(accepted, purpose) =>
      accepted && purpose.SwitchOff? && ledger == before + [Off(Controls(before), action, operator)]
    case Unwind(_, answer) => answer == Recorded && ledger == before + [Off(Controls(before), action, operator)]
    case Finished(answer) => answer == Recorded && ledger == before + [Off(Controls(before), action, operator)]
    case _ => false
  }

  ghost predicate OffAlone(s: State, p: nat, before: seq<Event>, action: Action, operator: string) {
    && Inv(s) && Unobstructed(s, p) && p in s.procs && s.procs[p].task == Disable(action, operator)
    && action.Operator? && !Used(Controls(before), action)
    && OffPoint(s.procs[p].pc, s.ledger, before, action, operator)
  }

  lemma OffStep(s: State, p: nat, before: seq<Event>, action: Action, operator: string, s': State)
    requires OffAlone(s, p, before, action, operator) && ProcStep(s, p, s')
    ensures OffAlone(s', p, before, action, operator) && OffLeft(s'.procs[p].pc) + 1 == OffLeft(s.procs[p].pc)
  {
    hide Inv, ProcStep, ControllerStep, AppendStep, OtherStep, LocksOk, OrdersOk, LedgerOk, Fact, Controls, Off, Held, Used;
    StepIsNext(s, p, s');
    PartOf(s, p, s');
    Relies(s, p);
    if Controlling(s.procs[p].pc) { OffController(s, p, before, action, operator, s'); }
    else if Appending(s.procs[p].pc) { OffAppend(s, p, before, action, operator, s'); }
    else { OffOther(s, p, before, action, operator, s'); }
  }

  lemma OffController(s: State, p: nat, before: seq<Event>, action: Action, operator: string, s': State)
    requires OffAlone(s, p, before, action, operator) && ControllerStep(s, p, s') && Inv(s')
    ensures OffAlone(s', p, before, action, operator) && OffLeft(s'.procs[p].pc) + 1 == OffLeft(s.procs[p].pc)
  {
    hide Inv, Controls, Off, Held, Used, RetryAnswer, Unobstructed;
    ControllerStaysFree(s, p, s');
  }

  lemma OffAppend(s: State, p: nat, before: seq<Event>, action: Action, operator: string, s': State)
    requires OffAlone(s, p, before, action, operator) && AppendStep(s, p, s') && Inv(s')
    ensures OffAlone(s', p, before, action, operator) && OffLeft(s'.procs[p].pc) + 1 == OffLeft(s.procs[p].pc)
  {
    hide Inv, LocksOk, OrdersOk, LedgerOk, Fact, Controls, Off, Used, ValidCandidate, Held, AppendStep, Unobstructed;
    Relies(s, p);
    AppendMove(s, p, s');
    AppendStaysFree(s, p, s');
    if s.procs[p].pc.Publish? { OffIsValid(s, p, s.procs[p].pc.event, before, action, operator); }
  }

  lemma OffOther(s: State, p: nat, before: seq<Event>, action: Action, operator: string, s': State)
    requires OffAlone(s, p, before, action, operator) && OtherStep(s, p, s') && Inv(s')
    ensures OffAlone(s', p, before, action, operator) && OffLeft(s'.procs[p].pc) + 1 == OffLeft(s.procs[p].pc)
  {
    hide Inv, Controls, Off, Used, Held, Unobstructed;
    OtherStaysFree(s, p, s');
  }

  lemma OffIsValid(s: State, p: nat, e: Event, before: seq<Event>, action: Action, operator: string)
    requires p in s.procs && s.procs[p].task == Disable(action, operator) && !Used(Controls(before), action)
    requires Fact(s.procs[p], Controls(before)) && s.procs[p].pc == Publish(e, SwitchOff, before)
    ensures e == Off(Controls(before), action, operator) && ValidCandidate(e, before, s.retained)
  {
  }

  lemma {:induction false} OffAloneAt(run: seq<State>, i: nat, k: nat, p: nat, before: seq<Event>, action: Action, operator: string)
    requires AloneFrom(run, i, p) && i <= k < |run| && OffAlone(run[i], p, before, action, operator)
    ensures OffAlone(run[k], p, before, action, operator)
    ensures OffLeft(run[k].procs[p].pc) + (k - i) == OffLeft(run[i].procs[p].pc)
    decreases k
  {
    hide OffAlone, ProcStep, OffLeft;
    if k > i {
      OffAloneAt(run, i, k - 1, p, before, action, operator);
      assert Steps(run, k - 1, p);
      OffStep(run[k - 1], p, before, action, operator, run[k]);
    }
  }

  /** A disable with a new action, run alone, takes exactly fourteen steps, never blocks, and leaves
      its OFF control, and nothing else, in the ledger. */
  lemma DisableCompletes(run: seq<State>, i: nat, p: nat, action: Action, operator: string)
    requires IsRun(run) && AloneFrom(run, i, p) && run[i].procs[p] == Proc(Disable(action, operator), Requested, None)
    requires action.Operator? && forall c :: c in Controls(run[i].ledger) ==> c.action != action
    requires Unobstructed(run[i], p)
    ensures |run| - 1 - i <= 14
    ensures |run| - 1 - i < 14 ==> CanMove(run[|run| - 1], p)
    ensures |run| - 1 - i == 14 ==>
              && p in run[|run| - 1].procs && run[|run| - 1].procs[p].pc == Finished(Recorded)
              && run[|run| - 1].ledger == run[i].ledger + [Off(Controls(run[i].ledger), action, operator)]
  {
    hide Inv, Controls, ProcStep, Off;
    EveryState(run, i);
    var last := |run| - 1;
    assert OffAlone(run[i], p, run[i].ledger, action, operator) by { hide Inv, Controls; }
    OffAloneAt(run, i, last, p, run[i].ledger, action, operator);
    if last - i < 14 { NotBlocked(run[last], p); }
  }

  // ---------------------------------------------------------------- enable_trading

  function OnLeft(pc: Pc): nat {
    match pc
    case Requested => 15
    case WantController => 14
    case WantRecovery => 13
    case Recovering => 12
    case ReadControls => 11
    case Decide(_) => 10
    case Probing(_) => 9
    case Retain => 8
    case WantAppend(_, _) => 7
    case ReadLedger(_, _) => 6
    case Publish(_, _, _) => 5
    case LeaveLedger(_, _) => 4
    case Launch => 3
    case Unwind(held, _) => |held| + 1
    case _ => 0
  }

  function On(action: Action, profile: Profile, operator: string): Event {
    Controlled(Control(action, Opened(action, profile), Some(profile), true, operator))
  }

  /** A worker has been started for the session. */
  ghost predicate Started(s: State, session: Session) {
    exists child :: child in s.procs && s.procs[child] == Proc(Work(session), Requested, None)
  }

  predicate OnPoint(pc: Pc, ledger: seq<Event>, before: seq<Event>, done: seq<Event>, kept: bool, started: bool) {
    match pc
    case Requested => ledger == before
    case WantController => ledger == before
    case WantRecovery => ledger == before
    case Recovering => ledger == before
    case ReadControls => ledger == before
    case Decide(seen) => ledger == before && seen == Controls(before)
    case Probing(seen) => ledger == before && seen == Controls(before)
    case Retain => ledger == before
    case WantAppend(_, purpose) => ledger == before && purpose.SwitchOn? && kept
    case ReadLedger(_, purpose) => ledger == before && purpose.SwitchOn? && kept
    case Publish(_, purpose, _) => ledger == before && purpose.SwitchOn? && kept
    case LeaveLedger(accepted, purpose) => accepted && purpose.SwitchOn? && ledger == done
    case Launch => ledger == done
    case Unwind(_, answer) => answer == Recorded && ledger == done && started
    case Finished(answer) => answer == Recorded && ledger == done && started
    case _ => false
  }

  ghost predicate OnAlone(s: State, p: nat, before: seq<Event>, action: Action, profile: Profile, operator: string) {
    && Inv(s) && p in s.procs && s.procs[p].task == Enable(action, profile, operator) && OwnLocks(s, p)
    && action.Operator? && profile.mode == Paper && !Used(Controls(before), action) && !LastOn(Controls(before))
    && OnPoint(s.procs[p].pc, s.ledger, before, before + [On(action, profile, operator)], profile in s.retained,
               Started(s, Opened(action, profile)))
  }

  lemma OnStep(s: State, p: nat, before: seq<Event>, action: Action, profile: Profile, operator: string, s': State)
    requires OnAlone(s, p, before, action, profile, operator) && ProcStep(s, p, s')
    requires p in s'.procs && s'.procs[p].pc != WantGate(AfterLaunch)
    ensures OnAlone(s', p, before, action, profile, operator) && OnLeft(s'.procs[p].pc) + 1 == OnLeft(s.procs[p].pc)
  {
    hide Inv, ProcStep, ControllerStep, AppendStep, OtherStep, Controls, On, Held, Used, LastOn, Started;
    StepIsNext(s, p, s');
    PartOf(s, p, s');
    if Controlling(s.procs[p].pc) { OnController(s, p, before, action, profile, operator, s'); }
    else if Appending(s.procs[p].pc) { OnAppend(s, p, before, action, profile, operator, s'); }
    else { OnOther(s, p, before, action, profile, operator, s'); }
  }

  lemma OnController(s: State, p: nat, before: seq<Event>, action: Action, profile: Profile, operator: string, s': State)
    requires OnAlone(s, p, before, action, profile, operator) && ControllerStep(s, p, s') && Inv(s')
    requires Controlling(s.procs[p].pc) && p in s'.procs && s'.procs[p].pc != WantGate(AfterLaunch)
    ensures OnAlone(s', p, before, action, profile, operator) && OnLeft(s'.procs[p].pc) + 1 == OnLeft(s.procs[p].pc)
  {
    hide Inv, LocksOk, OrdersOk, LedgerOk, Fact, Controls, On, Held, Used, LastOn, RetryAnswer, OwnLocks, Started, ControllerStep;
    LocksAreOk(s);
    ControllerStaysFree(s, p, s');
    if s.procs[p].pc.Launch? {
      LaunchStarts(s, p, action, profile, operator, s');
    } else {
      if s.procs[p].pc.Decide? { WorkerLockFree(s, p); }
      OnMoves(s, p, action, profile, operator, s');
    }
  }

  /** What each controlling step of an enable that meets no obstacle does. */
  lemma OnMoves(s: State, p: nat, action: Action, profile: Profile, operator: string, s': State)
    requires p in s.procs && s.procs[p].task == Enable(action, profile, operator) && ControllerStep(s, p, s')
    requires !s.procs[p].pc.Launch?
    ensures p in s'.procs && s'.ledger == s.ledger
    ensures match s.procs[p].pc
            case WantController => s'.procs[p].pc == WantRecovery
            case WantRecovery => s'.procs[p].pc == Recovering
            case Recovering => s'.procs[p].pc == ReadControls
            case ReadControls => s'.procs[p].pc == Decide(Controls(s.ledger))
            case Decide(seen) => !Used(seen, action) && Worker !in s.locks ==> s'.procs[p].pc == Probing(seen)
            case Probing(seen) => !LastOn(seen) ==> s'.procs[p].pc == Retain
            case Retain => s'.procs[p].pc == WantAppend(On(action, profile, operator), SwitchOn) && profile in s'.retained
            case _ => true
  {
    hide Controls, Used, RetryAnswer;
  }

  lemma LocksAreOk(s: State)
    requires Inv(s)
    ensures LocksOk(s)
  {
    hide LocksOk, OrdersOk, LedgerOk, Fact;
  }

  lemma WorkerLockFree(s: State, p: nat)
    requires LocksOk(s) && p in s.procs && OwnLocks(s, p) && s.procs[p].pc.Decide?
    ensures Worker !in s.locks
  {
  }

  lemma LaunchStarts(s: State, p: nat, action: Action, profile: Profile, operator: string, s': State)
    requires p in s.procs && s.procs[p].task == Enable(action, profile, operator) && s.procs[p].pc.Launch?
    requires ControllerStep(s, p, s') && s'.procs[p].pc != WantGate(AfterLaunch)
    ensures Started(s', Opened(action, profile)) && s'.locks == s.locks && s'.ledger == s.ledger
    ensures s'.procs[p].pc == Unwind({Controller}, Recorded) && s'.procs[p].task == s.procs[p].task
  {
    var child :| child !in s.procs && s' == Spawned(s, p, child);
    assert s'.procs[child] == Proc(Work(Opened(action, profile)), Requested, None);
  }

  lemma OnAppend(s: State, p: nat, before: seq<Event>, action: Action, profile: Profile, operator: string, s': State)
    requires OnAlone(s, p, before, action, profile, operator) && AppendStep(s, p, s') && Inv(s')
    ensures OnAlone(s', p, before, action, profile, operator) && OnLeft(s'.procs[p].pc) + 1 == OnLeft(s.procs[p].pc)
  {
    hide Inv, LocksOk, OrdersOk, LedgerOk, Fact, Controls, On, Used, LastOn, ValidCandidate, Held, Started, AppendStep, OwnLocks;
    Relies(s, p);
    AppendMove(s, p, s');
    AppendStaysFree(s, p, s');
    if s.procs[p].pc.Publish? { OnIsValid(s, p, s.procs[p].pc.event, before, action, profile, operator); }
  }

  lemma OnOther(s: State, p: nat, before: seq<Event>, action: Action, profile: Profile, operator: string, s': State)
    requires OnAlone(s, p, before, action, profile, operator) && OtherStep(s, p, s') && Inv(s') && AtEdge(s.procs[p].pc)
    ensures OnAlone(s', p, before, action, profile, operator) && OnLeft(s'.procs[p].pc) + 1 == OnLeft(s.procs[p].pc)
  {
    hide Inv, Controls, On, Used, LastOn, Held, Started, OwnLocks;
    OtherStaysFree(s, p, s');
    StartedStays(s, p, s', Opened(action, profile));
  }

  lemma StartedStays(s: State, p: nat, s': State, session: Session)
    requires p in s.procs && s.procs[p].task.Enable? && OtherStep(s, p, s')
    ensures Started(s, session) ==> Started(s', session)
  {
    if child :| child in s.procs && s.procs[child] == Proc(Work(session), Requested, None) {
      assert child in s'.procs && s'.procs[child] == s.procs[child];
    }
  }

  lemma OnIsValid(s: State, p: nat, e: Event, before: seq<Event>, action: Action, profile: Profile, operator: string)
    requires p in s.procs && s.procs[p].task == Enable(action, profile, operator) && !Used(Controls(before), action)
    requires Fact(s.procs[p], Controls(before)) && s.procs[p].pc == Publish(e, SwitchOn, before) && profile in s.retained
    ensures e == On(action, profile, operator) && ValidCandidate(e, before, s.retained)
  {
  }

  lemma {:induction false} OnAloneAt(run: seq<State>, i: nat, k: nat, p: nat, before: seq<Event>, action: Action, profile: Profile,
                                     operator: string)
    requires AloneFrom(run, i, p) && i <= k < |run| && OnAlone(run[i], p, before, action, profile, operator)
    requires forall n :: i <= n < |run| ==> p in run[n].procs && run[n].procs[p].pc != WantGate(AfterLaunch)
    ensures OnAlone(run[k], p, before, action, profile, operator) && p in run[k].procs
    ensures OnLeft(run[k].procs[p].pc) + (k - i) == OnLeft(run[i].procs[p].pc)
    decreases k
  {
    hide OnAlone, ProcStep, OnLeft;
    if k > i {
      OnAloneAt(run, i, k - 1, p, before, action, profile, operator);
      assert Steps(run, k - 1, p);
      OnStep(run[k - 1], p, before, action, profile, operator, run[k]);
    }
  }

  /** An enable with a new action, when the last control is off and no lock is taken, run alone and
      with a launch that succeeds: exactly fifteen steps, of which the twelfth leaves its opening
      control, and nothing else, in the ledger, and a worker for the session at the end. */
  lemma EnableCompletes(run: seq<State>, i: nat, p: nat, action: Action, profile: Profile, operator: string)
    requires IsRun(run) && AloneFrom(run, i, p) && run[i].procs[p] == Proc(Enable(action, profile, operator), Requested, None)
    requires action.Operator? && profile.mode == Paper && forall c :: c in Controls(run[i].ledger) ==> c.action != action
    requires !LastOn(Controls(run[i].ledger)) && run[i].locks == map[]
    requires forall n :: i <= n < |run| ==> p in run[n].procs && run[n].procs[p].pc != WantGate(AfterLaunch)
    ensures |run| - 1 - i <= 15
    ensures |run| - 1 - i < 15 ==> CanLaunch(run[|run| - 1], p)
    ensures |run| - 1 - i >= 12 ==> run[|run| - 1].ledger == run[i].ledger + [On(action, profile, operator)]
    ensures |run| - 1 - i == 15 ==>
              run[|run| - 1].procs[p].pc == Finished(Recorded) && Started(run[|run| - 1], Opened(action, profile))
  {
    hide IsRun, Inv, Controls, ProcStep, On, Started, LastOn, CanLaunch, OnAlone;
    EveryState(run, i);
    var last := |run| - 1;
    EnableBegins(run[i], p, action, profile, operator);
    OnAloneAt(run, i, last, p, run[i].ledger, action, profile, operator);
    if last - i < 15 { LaunchCanSucceed(run[last], p, run[i].ledger, action, profile, operator); }
    OnSoFar(run[last], p, run[i].ledger, action, profile, operator);
  }

  lemma EnableBegins(s: State, p: nat, action: Action, profile: Profile, operator: string)
    requires Inv(s) && p in s.procs && s.procs[p] == Proc(Enable(action, profile, operator), Requested, None) && s.locks == map[]
    requires action.Operator? && profile.mode == Paper && (forall c :: c in Controls(s.ledger) ==> c.action != action)
    requires !LastOn(Controls(s.ledger))
    ensures OnAlone(s, p, s.ledger, action, profile, operator) && OnLeft(s.procs[p].pc) == 15
  {
    hide Inv, Controls;
  }

  lemma OnSoFar(s: State, p: nat, before: seq<Event>, action: Action, profile: Profile, operator: string)
    requires OnAlone(s, p, before, action, profile, operator)
    ensures p in s.procs
    ensures OnLeft(s.procs[p].pc) <= 3 ==> s.ledger == before + [On(action, profile, operator)]
    ensures OnLeft(s.procs[p].pc) == 0 ==> s.procs[p].pc == Finished(Recorded) && Started(s, Opened(action, profile))
  {
    hide Inv, Controls, On, Started, LastOn, Used, OwnLocks;
  }

  /** The process has a step of its own, and not only the failure of its launch. */
  ghost predicate CanLaunch(s: State, p: nat) {
    p in s.procs && exists s' :: ProcStep(s, p, s') && p in s'.procs && s'.procs[p].pc != WantGate(AfterLaunch)
  }

  lemma LaunchCanSucceed(s: State, p: nat, before: seq<Event>, action: Action, profile: Profile, operator: string)
    requires OnAlone(s, p, before, action, profile, operator) && p in s.procs && OnLeft(s.procs[p].pc) > 0
    ensures CanLaunch(s, p)
  {
    if s.procs[p].pc.Launch? {
      hide Inv, Controls;
      var child := FreshName(s.procs.Keys);
      var s' := Spawned(s, p, child);
      assert ControllerStep(s, p, s');
      assert ProcStep(s, p, s') && s'.procs[p].pc == Unwind({Controller}, Recorded);
    } else {
      NotBlocked(s, p);
      var s' :| ProcStep(s, p, s');
      OnlyLaunchFails(s, p, before, action, profile, operator, s');
    }
  }

  lemma OnlyLaunchFails(s: State, p: nat, before: seq<Event>, action: Action, profile: Profile, operator: string, s': State)
    requires OnAlone(s, p, before, action, profile, operator) && ProcStep(s, p, s') && !s.procs[p].pc.Launch?
    ensures p in s'.procs && s'.procs[p].pc != WantGate(AfterLaunch)
  {
    hide ProcStep, ControllerStep, AppendStep, OtherStep, WorkerStep, GateStep, Inv, Controls, On, Used, LastOn, Started, OwnLocks;
    PartOf(s, p, s');
    if Controlling(s.procs[p].pc) { ControllerClosesNothing(s, p, s'); }
    else if Appending(s.procs[p].pc) { AppendClosesNothing(s, p, s'); }
    else { OtherClosesNothing(s, p, s'); }
  }

  lemma ControllerClosesNothing(s: State, p: nat, s': State)
    requires p in s.procs && ControllerStep(s, p, s') && !s.procs[p].pc.Launch?
    ensures p in s'.procs && !s'.procs[p].pc.WantGate?
  {
    hide Controls, RetryAnswer, Used, Latest, SessionOf, OffControl, OnControl;
  }

  lemma AppendClosesNothing(s: State, p: nat, s': State)
    requires p in s.procs && AppendStep(s, p, s')
    ensures p in s'.procs && !s'.procs[p].pc.WantGate?
  {
    hide ValidCandidate, Around;
  }

  lemma OtherClosesNothing(s: State, p: nat, s': State)
    requires p in s.procs && OtherStep(s, p, s')
    ensures p in s'.procs && !s'.procs[p].pc.WantGate?
  {
  }

  lemma FreshName(names: set<nat>) returns (n: nat)
    ensures n !in names && forall m :: m in names ==> m < n
  {
    if names == {} {
      n := 0;
    } else {
      var m :| m in names;
      n := FreshName(names - {m});
      assert names == (names - {m}) + {m};
      if n <= m { n := m + 1; }
    }
  }

  // ---------------------------------------------------------------- the end of a worker

  /** The status a closing worker records. */
  function EndOf(why: Closing): WorkerState {
    if why.AfterStop? then Stopped else if why.AfterRun? then WorkerState.Failed else StartFailed
  }

  /** The ledger once the session's gate has been closed, if it was still open. */
  function GateClosed(before: seq<Event>, session: Session): seq<Event> {
    var controls := Controls(before);
    var n := |controls| - 1;
    if n >= 0 && controls[n].enabled && controls[n].session == session
    then before + [Controlled(Control(Internal(session), session, controls[n].profile, false, controls[n].operator))]
    else before
  }

  function Closed(before: seq<Event>, session: Session, mode: Mode, why: Closing): seq<Event> {
    var shut := GateClosed(before, session);
    if Path(States(before, session) + [EndOf(why)]) then shut + [Status(session, mode, EndOf(why))] else shut
  }

  function EndLeft(pc: Pc): nat {
    match pc
    case WantGate(_) => 13
    case ReadGate(_) => 12
    case WantAppend(_, purpose) => if purpose.ShutGate? then 11 else 6
    case ReadLedger(_, purpose) => if purpose.ShutGate? then 10 else 5
    case Publish(_, purpose, _) => if purpose.ShutGate? then 9 else 4
    case LeaveLedger(_, purpose) => if purpose.ShutGate? then 8 else 3
    case LeaveGate(_) => 7
    case Unwind(held, _) => |held| + 1
    case _ => 0
  }

  predicate EndPoint(pc: Pc, ledger: seq<Event>, before: seq<Event>, session: Session, profile: Profile, why: Closing) {
    var shut, closed := GateClosed(before, session), Closed(before, session, profile.mode, why);
    var answer := if |closed| > |shut| then Ended(why) else Raised;
    match pc
    case WantGate(w) => w == why && ledger == before
    case ReadGate(w) => w == why && ledger == before
    case WantAppend(e, purpose) => EndEvent(e, purpose, ledger, before, shut, session, profile, why)
    case ReadLedger(e, purpose) => EndEvent(e, purpose, ledger, before, shut, session, profile, why)
    case Publish(e, purpose, _) => EndEvent(e, purpose, ledger, before, shut, session, profile, why)
    case LeaveLedger(accepted, purpose) =>
      if purpose.ShutGate? then accepted && purpose.why == why && ledger == shut
      else purpose == RecordEnd(why) && (accepted <==> |closed| > |shut|) && ledger == closed
    case LeaveGate(w) => w == why && ledger == shut
    case Unwind(held, a) => held <= {Worker} && a == answer && ledger == closed
    case Finished(a) => a == answer && ledger == closed
    case _ => false
  }

  ghost predicate EndAlone(s: State, p: nat, before: seq<Event>, session: Session, profile: Profile, why: Closing) {
    && Inv(s) && Unobstructed(s, p) && p in s.procs && s.procs[p].task == Work(session) && s.procs[p].profile == Some(profile)
    && !why.AfterLaunch? && EndPoint(s.procs[p].pc, s.ledger, before, session, profile, why)
  }

  predicate EndEvent(e: Event, purpose: Purpose, ledger: seq<Event>, before: seq<Event>, shut: seq<Event>, session: Session,
                     profile: Profile, why: Closing) {
    if purpose == ShutGate(why) then ledger == before && |shut| == |before| + 1 && e == shut[|before|]
    else purpose == RecordEnd(why) && ledger == shut && e == Status(session, profile.mode, EndOf(why))
  }

  lemma EndStep(s: State, p: nat, before: seq<Event>, session: Session, profile: Profile, why: Closing, s': State)
    requires EndAlone(s, p, before, session, profile, why) && ProcStep(s, p, s')
    ensures EndAlone(s', p, before, session, profile, why) && EndLeft(s'.procs[p].pc) < EndLeft(s.procs[p].pc)
  {
    hide Inv, ProcStep, GateStep, AppendStep, OtherStep, Controls, States, Path, Held, GateClosed, EndEvent;
    StepIsNext(s, p, s');
    PartOf(s, p, s');
    if Gating(s.procs[p].pc) { EndGate(s, p, before, session, profile, why, s'); }
    else if Appending(s.procs[p].pc) { EndAppend(s, p, before, session, profile, why, s'); }
    else { EndOther(s, p, before, session, profile, why, s'); }
  }

  lemma EndGate(s: State, p: nat, before: seq<Event>, session: Session, profile: Profile, why: Closing, s': State)
    requires EndAlone(s, p, before, session, profile, why) && GateStep(s, p, s') && Inv(s')
    ensures EndAlone(s', p, before, session, profile, why) && EndLeft(s'.procs[p].pc) < EndLeft(s.procs[p].pc)
  {
    hide Inv, Controls, States, Path, Held, Closed, Unobstructed, GateClosed;
    GateStaysFree(s, p, s');
    if s.procs[p].pc.ReadGate? { GateIsRead(s, p, session, s'); }
  }

  /** A gate that is still open is closed under the worker's own reserved action. */
  lemma GateIsRead(s: State, p: nat, session: Session, s': State)
    requires Inv(s) && p in s.procs && s.procs[p].task == Work(session) && s.procs[p].pc.ReadGate? && GateStep(s, p, s')
    ensures var shut := GateClosed(s.ledger, session);
      if |shut| == |s.ledger| then shut == s.ledger && s'.procs[p].pc == LeaveGate(s.procs[p].pc.why)
      else |shut| == |s.ledger| + 1 && s'.procs[p].pc == WantAppend(shut[|s.ledger|], ShutGate(s.procs[p].pc.why))
  {
    hide Inv, Controls;
  }

  lemma EndAppend(s: State, p: nat, before: seq<Event>, session: Session, profile: Profile, why: Closing, s': State)
    requires EndAlone(s, p, before, session, profile, why) && AppendStep(s, p, s') && Inv(s')
    ensures EndAlone(s', p, before, session, profile, why) && EndLeft(s'.procs[p].pc) < EndLeft(s.procs[p].pc)
  {
    hide Inv, LocksOk, OrdersOk, LedgerOk, Fact, Controls, States, Path, ValidCandidate, Held, AppendStep, Unobstructed, GateClosed;
    Relies(s, p);
    AppendMove(s, p, s');
    AppendStaysFree(s, p, s');
    GateClosedIs(before, session);
    if s.procs[p].pc.Publish? { EndPublish(s, p, before, session, profile, why, s'); }
  }

  lemma EndPublish(s: State, p: nat, before: seq<Event>, session: Session, profile: Profile, why: Closing, s': State)
    requires EndAlone(s, p, before, session, profile, why) && s.procs[p].pc.Publish? && s.procs[p].pc.snapshot == s.ledger
    requires var e, purpose := s.procs[p].pc.event, s.procs[p].pc.purpose;
      s' == if ValidCandidate(e, s.ledger, s.retained)
            then With(s, p, LeaveLedger(true, purpose)).(ledger := s.ledger + [e])
            else With(s, p, LeaveLedger(false, purpose))
    ensures EndPoint(s'.procs[p].pc, s'.ledger, before, session, profile, why)
  {
    hide Inv, Unobstructed, Controls, States, Path, ValidCandidate, GateClosed;
    var e, purpose := s.procs[p].pc.event, s.procs[p].pc.purpose;
    if purpose.ShutGate? {
      CloseIsValid(s, p, e, why);
    } else {
      SameStates(before, session);
      EndIsValid(s, p, e, session, profile, why);
    }
    GateClosedIs(before, session);
  }

  lemma GateClosedIs(before: seq<Event>, session: Session)
    ensures var shut := GateClosed(before, session);
      shut == before || (|shut| == |before| + 1 && shut == before + [shut[|before|]])
  {
    hide Controls;
  }

  lemma EndOther(s: State, p: nat, before: seq<Event>, session: Session, profile: Profile, why: Closing, s': State)
    requires EndAlone(s, p, before, session, profile, why) && OtherStep(s, p, s') && Inv(s')
    ensures EndAlone(s', p, before, session, profile, why) && EndLeft(s'.procs[p].pc) < EndLeft(s.procs[p].pc)
  {
    hide Inv, Controls, States, Path, Held, GateClosed, EndEvent, Closed, Unobstructed;
    OtherStaysFree(s, p, s');
  }

  lemma CloseIsValid(s: State, p: nat, e: Event, why: Closing)
    requires Inv(s) && p in s.procs && s.procs[p].pc == Publish(e, ShutGate(why), s.ledger)
    ensures ValidCandidate(e, s.ledger, s.retained)
  {
    Relies(s, p);
    hide Inv, LocksOk, OrdersOk, LedgerOk;
    FitsLedger(s, s.procs[p], e, ShutGate(why));
  }

  lemma SameStates(before: seq<Event>, session: Session)
    ensures States(GateClosed(before, session), session) == States(before, session)
  {
    if |GateClosed(before, session)| > |before| {
      ReadingsOfAppend(before, GateClosed(before, session)[|before|]);
    }
  }

  /** The end of a worker is accepted exactly when it continues the lifecycle of its session. */
  lemma EndIsValid(s: State, p: nat, e: Event, session: Session, profile: Profile, why: Closing)
    requires Inv(s) && p in s.procs && s.procs[p].task == Work(session) && s.procs[p].profile == Some(profile)
    requires s.procs[p].pc == Publish(e, RecordEnd(why), s.ledger) && !why.AfterLaunch?
    requires e == Status(session, profile.mode, EndOf(why))
    ensures ValidCandidate(e, s.ledger, s.retained) <==> Path(States(s.ledger, session) + [EndOf(why)])
  {
    Relies(s, p);
    WorkerIsBound(s, p, session, profile);
    hide Inv, LocksOk, OrdersOk, Fact, BoundTo, Path, States, ValidCandidate;
    StatusAccepted(s.ledger, e, s.retained);
  }

  /** The session of an admitted worker was opened for the profile it runs under. */
  lemma WorkerIsBound(s: State, p: nat, session: Session, profile: Profile)
    requires Inv(s) && p in s.procs && s.procs[p].task == Work(session) && s.procs[p].profile == Some(profile)
    requires Working(s.procs[p])
    ensures BoundTo(Controls(s.ledger), session, profile.mode, profile, s.retained)
  {
    Relies(s, p);
    var cs := Controls(s.ledger);
    assert Current(cs, session) && cs[|cs| - 1].profile == Some(profile) && session.Opened?;
    hide Inv, LocksOk, OrdersOk, Fact, Held;
    SessionIsBound(s.ledger, s.retained, session);
    ProfileOfSession(cs, |cs| - 1);
  }

  lemma SessionIsBound(ledger: seq<Event>, retained: set<Profile>, session: Session)
    requires LedgerOk(ledger, retained) && Current(Controls(ledger), session) && session.Opened?
    ensures BoundTo(Controls(ledger), session, session.profile.mode, session.profile, retained)
  {
    hide EndsShut, ValidLedger, Binding, Controls, ControlRule;
    var cs := Controls(ledger);
    DistinctActions(ledger, retained);
    OpenedBefore(cs, |cs| - 1);
    var m := FirstOn(cs, session);
    ProfileOfSession(cs, m);
  }

  lemma FirstOn(cs: seq<Control>, session: Session) returns (m: nat)
    requires exists i :: 0 <= i < |cs| && cs[i].enabled && cs[i].session == session
    ensures FirstOpening(cs, session, m)
  {
    hide Binding;
    BindingIsFirst(cs, session);
    m :| m < |cs| && Binding(cs, session) == Some(cs[m]) && cs[m].enabled && cs[m].session == session
      && forall j :: 0 <= j < m ==> !(cs[j].enabled && cs[j].session == session);
  }

  /** Every control of an opened session carries the profile the session was opened for. */
  lemma {:induction false} ProfileOfSession(cs: seq<Control>, i: nat)
    requires Alternating(cs) && i < |cs| && cs[i].session.Opened?
    ensures cs[i].profile == Some(cs[i].session.profile)
  {
    assert ControlRule(cs, i);
    if !cs[i].enabled {
      assert cs[..0] == [];
      assert i > 0;
      assert Latest(cs[..i]) == Some(cs[i - 1]);
      ProfileOfSession(cs, i - 1);
    }
  }

  lemma {:induction false} EndAloneAt(run: seq<State>, i: nat, k: nat, p: nat, before: seq<Event>, session: Session, profile: Profile,
                                      why: Closing)
    requires AloneFrom(run, i, p) && i <= k < |run| && EndAlone(run[i], p, before, session, profile, why)
    ensures EndAlone(run[k], p, before, session, profile, why)
    ensures EndLeft(run[k].procs[p].pc) + (k - i) <= EndLeft(run[i].procs[p].pc)
    decreases k
  {
    hide EndAlone, ProcStep, EndLeft;
    if k > i {
      EndAloneAt(run, i, k - 1, p, before, session, profile, why);
      assert Steps(run, k - 1, p);
      EndStep(run[k - 1], p, before, session, profile, why, run[k]);
    }
  }

  /** A worker that has begun to close, run alone, ends within thirteen steps and never blocks: it
      closes its session's gate if that is still open, records its end exactly when that continues
      the session's lifecycle, and appends nothing else. */
  lemma WorkerCloses(run: seq<State>, i: nat, p: nat, session: Session, profile: Profile, why: Closing)
    requires IsRun(run) && AloneFrom(run, i, p) && run[i].procs[p] == Proc(Work(session), WantGate(why), Some(profile))
    requires !why.AfterLaunch? && Unobstructed(run[i], p)
    ensures |run| - 1 - i <= 13 && p in run[|run| - 1].procs
    ensures !run[|run| - 1].procs[p].pc.Finished? ==> CanMove(run[|run| - 1], p)
    ensures run[|run| - 1].procs[p].pc.Finished? ==>
              && run[|run| - 1].ledger == Closed(run[i].ledger, session, profile.mode, why)
              && run[|run| - 1].procs[p].pc.answer
                   == if Path(States(run[i].ledger, session) + [EndOf(why)]) then Ended(why) else Raised
  {
    hide Inv, ProcStep, IsRun, Controls, States, Path, GateClosed, Unobstructed;
    EveryState(run, i);
    var last := |run| - 1;
    assert EndAlone(run[i], p, run[i].ledger, session, profile, why) by { hide Inv, GateClosed, Closed; }
    EndAloneAt(run, i, last, p, run[i].ledger, session, profile, why);
    if !run[last].procs[p].pc.Finished? { NotBlocked(run[last], p); }
  }

  // ---------------------------------------------------------------- the start of a worker

  /** A worker whose session's gate is open is admitted after three steps of its own, whatever the
      others do to other locks; one whose gate is closed is turned away. */
  lemma WorkerIsAdmitted(run: seq<State>, i: nat, p: nat, session: Session)
    requires IsRun(run) && AloneFrom(run, i, p) && run[i].procs[p] == Proc(Work(session), Requested, None)
    requires Worker !in run[i].locks && |run| == i + 4
    ensures p in run[i + 3].procs && run[i + 3].ledger == run[i].ledger
    ensures GateOpen(Controls(run[i].ledger), session) ==>
              && run[i + 3].procs[p] == Proc(Work(session), Startup, Controls(run[i].ledger)[|Controls(run[i].ledger)| - 1].profile)
              && Worker in run[i + 3].locks && run[i + 3].locks[Worker] == p
    ensures !GateOpen(Controls(run[i].ledger), session) ==> run[i + 3].procs[p].pc == Unwind({Worker}, Raised)
  {
    hide Inv, Controls;
    assert Steps(run, i, p) && Steps(run, i + 1, p) && Steps(run, i + 2, p);
    FirstMove(run[i], p, run[i + 1], session);
    SecondMove(run[i + 1], p, run[i + 2], session);
    ThirdMove(run[i + 2], p, run[i + 3], session);
  }

  lemma FirstMove(s: State, p: nat, s': State, session: Session)
    requires p in s.procs && s.procs[p] == Proc(Work(session), Requested, None) && ProcStep(s, p, s')
    ensures s' == With(s, p, TryWorker)
  {
  }

  lemma SecondMove(s: State, p: nat, s': State, session: Session)
    requires p in s.procs && s.procs[p] == Proc(Work(session), TryWorker, None) && Worker !in s.locks && ProcStep(s, p, s')
    ensures s' == Taking(s, p, Worker, Admission)
  {
  }

  lemma ThirdMove(s: State, p: nat, s': State, session: Session)
    requires p in s.procs && s.procs[p] == Proc(Work(session), Admission, None) && ProcStep(s, p, s')
    ensures if GateOpen(Controls(s.ledger), session) then s' == Admitted(s, p, Latest(Controls(s.ledger)).value)
            else s' == With(s, p, Unwind({Worker}, Raised))
  {
    hide Controls;
  }

  /** One append of a process that nobody keeps from the ledger, as its own four steps. */
  lemma Appends(s: State, p: nat, e: Event, purpose: Purpose) returns (path: seq<State>)
    requires p in s.procs && s.procs[p].pc == WantAppend(e, purpose) && Ledger !in s.locks
    requires ValidCandidate(e, s.ledger, s.retained)
    ensures Path4(path, p) && path[0] == s
    ensures path[4] == With(s, p, Continue(true, purpose)).(ledger := s.ledger + [e])
  {
    hide ProcStep, ValidCandidate, Continue;
    var a := Taking(s, p, Ledger, ReadLedger(e, purpose));
    var b := With(a, p, Publish(e, purpose, a.ledger));
    var c := With(b, p, LeaveLedger(true, purpose)).(ledger := s.ledger + [e]);
    var d := Dropping(c, p, Ledger, Continue(true, purpose));
    AppendSteps(s, p, e, purpose, a, b, c, d);
    path := [s, a, b, c, d];
    assert d.locks == s.locks;
    assert d.procs == s.procs[p := s.procs[p].(pc := Continue(true, purpose))];
  }

  lemma AppendSteps(s: State, p: nat, e: Event, purpose: Purpose, a: State, b: State, c: State, d: State)
    requires p in s.procs && s.procs[p].pc == WantAppend(e, purpose) && Ledger !in s.locks
    requires ValidCandidate(e, s.ledger, s.retained)
    requires a == Taking(s, p, Ledger, ReadLedger(e, purpose)) && b == With(a, p, Publish(e, purpose, a.ledger))
    requires c == With(b, p, LeaveLedger(true, purpose)).(ledger := s.ledger + [e])
    requires d == Dropping(c, p, Ledger, Continue(true, purpose))
    ensures ProcStep(s, p, a) && ProcStep(a, p, b) && ProcStep(b, p, c) && ProcStep(c, p, d)
  {
    hide ValidCandidate, Continue, ControllerStep, WorkerStep, GateStep, OtherStep;
  }

  ghost predicate Path4(path: seq<State>, p: nat) {
    |path| == 5 && Steps(path, 0, p) && Steps(path, 1, p) && Steps(path, 2, p) && Steps(path, 3, p)
  }

  /** A path of p's own steps. */
  ghost predicate OwnPath(path: seq<State>, p: nat) {
    path != [] && forall k: nat :: k + 1 < |path| ==> Steps(path, k, p)
  }

  /** An admitted worker whose gate is still open can record its start and run. */
  lemma WorkerStarts(run: seq<State>, i: nat, p: nat, session: Session, profile: Profile) returns (path: seq<State>)
    requires IsRun(run) && i < |run| && p in run[i].procs && run[i].procs[p] == Proc(Work(session), Startup, Some(profile))
    requires GateOpen(Controls(run[i].ledger), session) && States(run[i].ledger, session) == [] && Ledger !in run[i].locks
    ensures OwnPath(path, p) && |path| == 6 && path[0] == run[i] && p in path[5].procs
    ensures path[5].procs[p] == Proc(Work(session), Run, Some(profile))
    ensures path[5].ledger == run[i].ledger + [Status(session, profile.mode, Starting)]
  {
    hide Inv, Controls, States, ValidCandidate, ProcStep, GateOpen;
    var s := run[i];
    EveryState(run, i);
    StartIsValid(s, p, session, profile);
    var t := StartRecorded(s, p, session, profile);
    var rest := Appends(t, p, Status(session, profile.mode, Starting), RecordStart);
    path := [s] + rest;
    OneMore(s, rest, p);
  }

  lemma StartRecorded(s: State, p: nat, session: Session, profile: Profile) returns (t: State)
    requires p in s.procs && s.procs[p] == Proc(Work(session), Startup, Some(profile)) && GateOpen(Controls(s.ledger), session)
    ensures ProcStep(s, p, t) && t == With(s, p, WantAppend(Status(session, profile.mode, Starting), RecordStart))
  {
    hide Controls;
    t := With(s, p, WantAppend(Status(session, profile.mode, Starting), RecordStart));
    assert WorkerStep(s, p, t);
  }

  /** A step before a path of four, and one after it. */
  lemma OneMore(s: State, rest: seq<State>, p: nat)
    requires Path4(rest, p) && p in s.procs && ProcStep(s, p, rest[0])
    ensures OwnPath([s] + rest, p)
  {
    hide ProcStep;
    var path := [s] + rest;
    assert path[1] == rest[0] && path[2] == rest[1] && path[3] == rest[2] && path[4] == rest[3] && path[5] == rest[4];
    forall k: nat | k + 1 < |path|
      ensures Steps(path, k, p)
    {
      assert k == 0 || k == 1 || k == 2 || k == 3 || k == 4;
    }
  }

  lemma StartIsValid(s: State, p: nat, session: Session, profile: Profile)
    requires Inv(s) && p in s.procs && s.procs[p] == Proc(Work(session), Startup, Some(profile)) && States(s.ledger, session) == []
    ensures ValidCandidate(Status(session, profile.mode, Starting), s.ledger, s.retained)
  {
    Relies(s, p);
    WorkerIsBound(s, p, session, profile);
    assert Path([] + [Starting]);
    hide Inv, LocksOk, OrdersOk, Fact, Controls, States, Path, BoundTo, ValidCandidate;
    StatusAccepted(s.ledger, Status(session, profile.mode, Starting), s.retained);
  }

  /** A running worker whose gate is open can record an attempt that the ledger accepts and then send
      its risk-increasing order. */
  lemma OrderGoesOut(run: seq<State>, i: nat, p: nat, session: Session, profile: Profile, e: Event) returns (path: seq<State>)
    requires IsRun(run) && i < |run| && p in run[i].procs && run[i].procs[p] == Proc(Work(session), Run, Some(profile))
    requires GateOpen(Controls(run[i].ledger), session) && Submission !in run[i].locks && Ledger !in run[i].locks
    requires e.Guard? && e.session == session && e.mode == profile.mode && e.receipt.outcome == Attempt
    requires ValidCandidate(e, run[i].ledger, run[i].retained)
    ensures OwnPath(path, p) && |path| == 9 && path[0] == run[i]
    ensures path[8].ledger == run[i].ledger + [e]
    ensures path[8].orders == run[i].orders + [Order(session, true, |run[i].ledger| + 1)]
  {
    hide Controls, ValidCandidate, IsRun, ProcStep, GateOpen;
    var s := run[i];
    var c := AsksForEntry(s, p, session, profile, e);
    var rest := Appends(c[3], p, e, Intend(true));
    var f := OrderSent(rest[4], p);
    path := c[..3] + rest + [f];
    Around4(c, rest, f, p);
  }

  lemma OrderSent(d: State, p: nat) returns (f: State)
    requires p in d.procs && d.procs[p].pc == Mutate(true)
    ensures ProcStep(d, p, f) && f.ledger == d.ledger
    ensures f.orders == d.orders + [Order(SessionOf(d.procs[p].task), true, |d.ledger|)]
  {
    hide Controls;
    f := Ordered(d, p, true, LeaveEntry);
    assert WorkerStep(d, p, f);
  }

  lemma Around4(c: seq<State>, rest: seq<State>, f: State, p: nat)
    requires |c| == 4 && Steps(c, 0, p) && Steps(c, 1, p) && Steps(c, 2, p) && Path4(rest, p) && rest[0] == c[3]
    requires p in rest[4].procs && ProcStep(rest[4], p, f)
    ensures OwnPath(c[..3] + rest + [f], p)
  {
    hide ProcStep;
    var path := c[..3] + rest + [f];
    forall k: nat | k + 1 < |path|
      ensures Steps(path, k, p)
    {
      if k < 3 {
        assert path[k] == c[k] && path[k + 1] == c[k + 1];
        assert k == 0 || k == 1 || k == 2;
      } else if k < 7 {
        assert path[k] == rest[k - 3] && path[k + 1] == rest[k - 2];
        assert k == 3 || k == 4 || k == 5 || k == 6;
      }
    }
  }

  lemma AsksForEntry(s: State, p: nat, session: Session, profile: Profile, e: Event) returns (path: seq<State>)
    requires p in s.procs && s.procs[p] == Proc(Work(session), Run, Some(profile))
    requires GateOpen(Controls(s.ledger), session) && Submission !in s.locks
    requires e.Guard? && e.session == session && e.mode == profile.mode && e.receipt.outcome == Attempt
    ensures |path| == 4 && path[0] == s && Steps(path, 0, p) && Steps(path, 1, p) && Steps(path, 2, p)
    ensures path[3] == With(s, p, WantAppend(e, Intend(true))).(locks := s.locks[Submission := p])
  {
    hide Controls;
    var a := With(s, p, WantEntry);
    assert WorkerStep(s, p, a);
    var b := Taking(a, p, Submission, EntryCheck);
    assert WorkerStep(a, p, b);
    var c := With(b, p, WantAppend(e, Intend(true)));
    assert RunnerEvent(e, b.procs[p]);
    assert WorkerStep(b, p, c);
    path := [s, a, b, c];
    hide WorkerStep;
    assert ProcStep(s, p, a) && ProcStep(a, p, b) && ProcStep(b, p, c);
    assert c.procs == s.procs[p := s.procs[p].(pc := WantAppend(e, Intend(true)))];
  }
}
