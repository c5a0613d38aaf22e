/** Retrying an operation of the trading protocol under an action that was used before: it writes
    nothing, and is accepted exactly when the control recorded then is the one it asks for. */
module TradingRetries {
  import opened Options
  import opened TradingLedger
  import opened TradingProtocol
  import opened TradingInvariant
  import opened TradingPreserved
  import opened TradingSafety
  import opened TradingProgress

  /** A request that passes the checks made before any lock is taken. */
  predicate Asks(task: Task, action: Action) {
    match task
    case Enable(a, profile, _) => a == action && action.Operator? && profile.mode == Paper
    case Disable(a, _) => a == action && action.Operator?
    case _ => false
  }

  /** The control is what the request asks for. */
  predicate AskedFor(c: Control, task: Task) {
    match task
    case Enable(action, profile, operator) =>
      c.action == action && c.enabled && c.profile == Some(profile) && c.operator == operator
    case Disable(action, operator) => c.action == action && !c.enabled && c.operator == operator
    case _ => false
  }

  lemma {:induction false} FirstUseIs(controls: seq<Control>, action: Action)
    ensures FirstUse(controls, action).None? <==> !Used(controls, action)
    ensures FirstUse(controls, action).Some? ==>
              FirstUse(controls, action).value in controls && FirstUse(controls, action).value.action == action
  {
    if controls != [] && controls[0].action != action {
      FirstUseIs(controls[1..], action);
      assert forall i :: 1 <= i < |controls| ==> controls[i] == controls[1..][i - 1];
    }
  }

  /** As no action is used twice, the control found is the only one that can answer the request. */
  lemma AnsweredBy(controls: seq<Control>, task: Task, action: Action)
    requires Asks(task, action) && Used(controls, action)
    requires forall i, j :: 0 <= i < j < |controls| ==> controls[i].action != controls[j].action
    ensures RetryAnswer(task, controls) == if exists c :: c in controls && AskedFor(c, task) then Repeated else Raised
  {
    FirstUseIs(controls, action);
    var first := FirstUse(controls, action).value;
    if c :| c in controls && AskedFor(c, task) {
      assert c == first;
    } else {
      assert !AskedFor(first, task);
    }
  }

  function RetryLeft(pc: Pc): nat {
    match pc
    case Requested => 8
    case WantController => 7
    case WantRecovery => 6
    case Recovering => 5
    case ReadControls => 4
    case Decide(_) => 3
    case Unwind(held, _) => |held| + 1
    case _ => 0
  }

  predicate RetryPoint(pc: Pc, before: seq<Event>, answer: Answer) {
    match pc
    case Requested => true
    case WantController => true
    case WantRecovery => true
    case Recovering => true
    case ReadControls => true
    case Decide(seen) => seen == Controls(before)
    case Unwind(_, a) => a == answer
    case Finished(a) => a == answer
    case _ => false
  }

  ghost predicate Retrying(s: State, p: nat, before: seq<Event>, task: Task, action: Action, answer: Answer) {
    && Inv(s) && Unobstructed(s, p) && p in s.procs && s.procs[p].task == task
    && Asks(task, action) && Used(Controls(before), action) && answer == RetryAnswer(task, Controls(before))
    && s.ledger == before && RetryPoint(s.procs[p].pc, before, answer)
  }

  lemma RetryStep(s: State, p: nat, before: seq<Event>, task: Task, action: Action, answer: Answer, s': State)
    requires Retrying(s, p, before, task, action, answer) && ProcStep(s, p, s')
    ensures Retrying(s', p, before, task, action, answer) && RetryLeft(s'.procs[p].pc) + 1 == RetryLeft(s.procs[p].pc)
  {
    hide Inv, ProcStep, ControllerStep, AppendStep, OtherStep, Controls, Held, Used, RetryAnswer;
    StepIsNext(s, p, s');
    PartOf(s, p, s');
    if Controlling(s.procs[p].pc) {
      RetryController(s, p, before, task, action, answer, s');
    } else {
      RetryOther(s, p, before, task, action, answer, s');
    }
  }

  lemma RetryController(s: State, p: nat, before: seq<Event>, task: Task, action: Action, answer: Answer, s': State)
    requires Retrying(s, p, before, task, action, answer) && ControllerStep(s, p, s') && Inv(s')
    ensures Retrying(s', p, before, task, action, answer) && RetryLeft(s'.procs[p].pc) + 1 == RetryLeft(s.procs[p].pc)
  {
    hide Inv, Controls, Held, Used, RetryAnswer, Unobstructed;
    ControllerStaysFree(s, p, s');
  }

  lemma RetryOther(s: State, p: nat, before: seq<Event>, task: Task, action: Action, answer: Answer, s': State)
    requires Retrying(s, p, before, task, action, answer) && OtherStep(s, p, s') && Inv(s')
    ensures Retrying(s', p, before, task, action, answer) && RetryLeft(s'.procs[p].pc) + 1 == RetryLeft(s.procs[p].pc)
  {
    hide Inv, Controls, Held, Used, RetryAnswer, Unobstructed;
    OtherStaysFree(s, p, s');
  }

  lemma {:induction false} RetryingAt(run: seq<State>, i: nat, k: nat, p: nat, before: seq<Event>, task: Task, action: Action,
                                      answer: Answer)
    requires AloneFrom(run, i, p) && i <= k < |run| && Retrying(run[i], p, before, task, action, answer)
    ensures Retrying(run[k], p, before, task, action, answer)
    ensures RetryLeft(run[k].procs[p].pc) + (k - i) == RetryLeft(run[i].procs[p].pc)
    decreases k
  {
    hide Retrying, ProcStep, RetryLeft;
    if k > i {
      RetryingAt(run, i, k - 1, p, before, task, action, answer);
      assert Steps(run, k - 1, p);
      RetryStep(run[k - 1], p, before, task, action, answer, run[k]);
    }
  }

  /** An enable or disable under a used action, run alone, takes exactly eight steps, never blocks,
      leaves the ledger as it is, and is accepted if and only if the control recorded under that
      action is the one it asks for. */
  lemma RetryCompletes(run: seq<State>, i: nat, p: nat, action: Action)
    requires IsRun(run) && AloneFrom(run, i, p) && Unobstructed(run[i], p)
    requires run[i].procs[p].pc == Requested && Asks(run[i].procs[p].task, action)
    requires exists c :: c in Controls(run[i].ledger) && c.action == action
    ensures |run| - 1 - i <= 8 && run[|run| - 1].ledger == run[i].ledger
    ensures |run| - 1 - i < 8 ==> CanMove(run[|run| - 1], p)
    ensures |run| - 1 - i == 8 ==>
              && p in run[|run| - 1].procs
              && run[|run| - 1].procs[p].pc
                   == Finished(if exists c :: c in Controls(run[i].ledger) && AskedFor(c, run[i].procs[p].task)
                               then Repeated else Raised)
  {
    hide IsRun, Inv, Controls, ProcStep, RetryAnswer, AskedFor;
    EveryState(run, i);
    var last, task := |run| - 1, run[i].procs[p].task;
    var controls := Controls(run[i].ledger);
    var answer := RetryAnswer(task, controls);
    ActionsDiffer(run[i]);
    AnsweredBy(controls, task, action);
    RetryingAt(run, i, last, p, run[i].ledger, task, action, answer);
    if last - i < 8 { NotBlocked(run[last], p); }
  }

  lemma ActionsDiffer(s: State)
    requires Inv(s)
    ensures forall i, j :: 0 <= i < j < |Controls(s.ledger)| ==> Controls(s.ledger)[i].action != Controls(s.ledger)[j].action
  {
    hide LocksOk, OrdersOk, ProcsOk;
    DistinctActions(s.ledger, s.retained);
  }
}
