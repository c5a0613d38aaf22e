/** Every step of every process, every exception and every kill keeps the invariant. */
module TradingPreserved {
  import opened Options
  import opened TradingLedger
  import opened TradingProtocol
  import opened TradingInvariant

  // ---------------------------------------------------------------- locks

  lemma MoveKeepsLocks(s: State, p: nat, pc: Pc)
    requires LocksOk(s) && p in s.procs && Held(pc) == Held(s.procs[p].pc)
    ensures LocksOk(With(s, p, pc))
  {
    hide Held;
  }

  lemma TakeKeepsLocks(s: State, p: nat, l: Lock, pc: Pc, s': State)
    requires LocksOk(s) && p in s.procs && Take(s, p, l, pc, s')
    requires Held(pc) == Held(s.procs[p].pc) + {l}
    ensures LocksOk(s')
  {
    hide Held;
    forall q, m | q in s'.procs && m in Held(s'.procs[q].pc)
      ensures m in s'.locks && s'.locks[m] == q
    {
      if q != p { assert s'.procs[q] == s.procs[q]; }
    }
  }

  lemma DropKeepsLocks(s: State, p: nat, l: Lock, pc: Pc, s': State)
    requires LocksOk(s) && p in s.procs && Drop(s, p, l, pc, s')
    requires l in Held(s.procs[p].pc) && Held(pc) == Held(s.procs[p].pc) - {l}
    ensures LocksOk(s')
  {
    hide Held;
    assert s.locks[l] == p;
    forall q, m | q in s'.procs && m in Held(s'.procs[q].pc)
      ensures m in s'.locks && s'.locks[m] == q
    {
      if q != p { assert s'.procs[q] == s.procs[q] && s.locks[m] == q; }
    }
  }

  lemma LocksExclude(s: State, p: nat, q: nat)
    requires LocksOk(s) && p in s.procs && q in s.procs && p != q
    ensures Held(s.procs[p].pc) !! Held(s.procs[q].pc)
  {
    hide Held;
    forall l | l in Held(s.procs[p].pc)
      ensures l !in Held(s.procs[q].pc)
    {
      assert s.locks[l] == p;
    }
  }

  // ---------------------------------------------------------------- steps that leave the ledger alone

  /** What one process may rely on, without unfolding what the others may. */
  lemma Relies(s: State, p: nat)
    requires Inv(s) && p in s.procs
    ensures LocksOk(s) && OrdersOk(s.ledger, s.orders) && LedgerOk(s.ledger, s.retained)
    ensures Fact(s.procs[p], Controls(s.ledger))
    ensures s.procs[p].pc.Publish? ==> s.procs[p].pc.snapshot == s.ledger
  {
    hide Fact, LocksOk, OrdersOk, LedgerOk;
  }

  lemma MoreRetained(ledger: seq<Event>, retained: set<Profile>, more: set<Profile>)
    requires LedgerOk(ledger, retained) && retained <= more
    ensures LedgerOk(ledger, more)
  {
    hide Alternating, EndsShut, ValidReceipt, States;
    forall n | 0 <= n < |ledger|
      ensures ValidCandidate(ledger[n], ledger[..n], more)
    {
      assert ValidCandidate(ledger[n], ledger[..n], retained);
    }
  }

  /** A step of `p` that publishes nothing keeps the invariant when `p`'s own new point
      is justified and does not pit a starting controller against an admitted worker. */
  lemma SilentStep(s: State, p: nat, s': State)
    requires Inv(s) && p in s.procs && LocksOk(s') && OrdersOk(s'.ledger, s'.orders)
    requires s'.ledger == s.ledger && s.retained <= s'.retained
    requires p in s'.procs && s'.procs == s.procs[p := s'.procs[p]]
    requires Fact(s'.procs[p], Controls(s.ledger))
    requires s'.procs[p].pc.Publish? ==> s'.procs[p].pc.snapshot == s.ledger
    requires Opening(s'.procs[p].pc) ==>
               !Working(s'.procs[p]) && forall q :: q in s.procs && q != p ==> !Working(s.procs[q])
    requires Working(s'.procs[p]) ==> forall q :: q in s.procs && q != p ==> !Opening(s.procs[q].pc)
    ensures Inv(s')
  {
    hide Fact, LocksOk, OrdersOk, LedgerOk, Opening, Working;
    MoreRetained(s.ledger, s.retained, s'.retained);
    forall q | q in s'.procs
      ensures Fact(s'.procs[q], Controls(s.ledger))
      ensures s'.procs[q].pc.Publish? ==> s'.procs[q].pc.snapshot == s.ledger
    {
      if q != p { assert s'.procs[q] == s.procs[q]; }
    }
    forall q, r | q in s'.procs && r in s'.procs && Opening(s'.procs[q].pc)
      ensures !Working(s'.procs[r])
    {
      if q != p { assert s'.procs[q] == s.procs[q]; }
      if r != p { assert s'.procs[r] == s.procs[r]; }
    }
  }

  /** A step that stays on the same side of both doors needs no more than its own justification. */
  lemma QuietStep(s: State, p: nat, s': State)
    requires Inv(s) && p in s.procs && LocksOk(s')
    requires s'.ledger == s.ledger && s.retained <= s'.retained && s'.orders == s.orders
    requires p in s'.procs && s'.procs == s.procs[p := s'.procs[p]]
    requires Fact(s'.procs[p], Controls(s.ledger))
    requires s'.procs[p].pc.Publish? ==> s'.procs[p].pc.snapshot == s.ledger
    requires Opening(s'.procs[p].pc) ==> Opening(s.procs[p].pc) && !Working(s'.procs[p])
    requires Working(s'.procs[p]) ==> Working(s.procs[p])
    ensures Inv(s')
  {
    hide Fact, LocksOk, OrdersOk, LedgerOk, Opening, Working;
    SilentStep(s, p, s');
  }

  /** Holding the worker lock shuts out every other admitted worker. */
  lemma WorkerLockExcludes(s: State, p: nat)
    requires LocksOk(s) && p in s.procs && Worker in Held(s.procs[p].pc)
    ensures forall q :: q in s.procs && q != p ==> !Working(s.procs[q])
  {
    hide Held, LocksOk;
    forall q | q in s.procs && q != p
      ensures !Working(s.procs[q])
    {
      LocksExclude(s, p, q);
    }
  }

  /** No controller can be about to open a session while one is open. */
  lemma OpenGateExcludes(s: State, session: Session)
    requires Inv(s) && GateOpen(Controls(s.ledger), session)
    ensures forall q :: q in s.procs ==> !Opening(s.procs[q].pc)
  {
    hide Inv;
    forall q | q in s.procs
      ensures !Opening(s.procs[q].pc)
    {
      Relies(s, q);
    }
  }

  lemma {:induction false} ControllerStepKeeps(s: State, p: nat, s': State)
    requires Inv(s) && p in s.procs && ControllerStep(s, p, s')
    ensures Inv(s')
  {
    hide Inv, LocksOk, OrdersOk, LedgerOk;
    Relies(s, p);
    var me, cs := s.procs[p], Controls(s.ledger);
    match me.pc
    case WantController => TakeKeepsLocks(s, p, Controller, WantRecovery, s'); QuietStep(s, p, s');
    case WantRecovery => TakeKeepsLocks(s, p, Ledger, Recovering, s'); QuietStep(s, p, s');
    case Recovering => DropKeepsLocks(s, p, Ledger, ReadControls, s'); QuietStep(s, p, s');
    case ReadControls => MoveKeepsLocks(s, p, Decide(cs)); QuietStep(s, p, s');
    case Decide(seen) => DecideKeeps(s, p, seen, s');
    case Probing(seen) => ProbingKeeps(s, p, seen, s');
    case Retain => RetainKeeps(s, p, s');
    case WantOff(current) =>
      assert OffControl(me.task, current) == OffControl(me.task, Latest(cs));
      TakeKeepsLocks(s, p, Submission, WantAppend(Controlled(OffControl(me.task, current)), SwitchOff), s');
      QuietStep(s, p, s');
    case Launch => LaunchKeeps(s, p, s');
    case _ =>
  }

  lemma RetainKeeps(s: State, p: nat, s': State)
    requires Inv(s) && p in s.procs && s.procs[p].pc.Retain? && ControllerStep(s, p, s')
    ensures Inv(s')
  {
    hide Inv, LocksOk, OrdersOk, LedgerOk;
    Relies(s, p);
    var pc := WantAppend(Controlled(OnControl(s.procs[p].task)), SwitchOn);
    MoveKeepsLocks(s, p, pc);
    LocksOnly(With(s, p, pc), s');
    QuietStep(s, p, s');
  }

  lemma LocksOnly(s: State, s': State)
    requires LocksOk(s) && s'.locks == s.locks && s'.procs == s.procs
    ensures LocksOk(s')
  {
    hide Held;
  }

  lemma DecideKeeps(s: State, p: nat, seen: seq<Control>, s': State)
    requires Inv(s) && p in s.procs && s.procs[p].pc == Decide(seen) && ControllerStep(s, p, s')
    ensures Inv(s')
  {
    hide Inv, LocksOk, OrdersOk, LedgerOk;
    Relies(s, p);
    var me, cs := s.procs[p], Controls(s.ledger);
    match me.task
    case Enable(action, _, _) =>
      if Used(seen, action) || Worker in s.locks {
        MoveKeepsLocks(s, p, s'.procs[p].pc);
      } else {
        TakeKeepsLocks(s, p, Worker, Probing(seen), s');
      }
      QuietStep(s, p, s');
    case Disable(action, _) =>
      if Used(seen, action) {
        MoveKeepsLocks(s, p, s'.procs[p].pc);
      } else {
        MoveKeepsLocks(s, p, WantOff(Latest(seen)));
        QuietFacts(seen, cs, action);
      }
      QuietStep(s, p, s');
  }

  /** What was read under the controller lock still holds of the ledger. */
  lemma QuietFacts(seen: seq<Control>, cs: seq<Control>, action: Action)
    requires Quiet(seen, cs) && action.Operator?
    ensures SessionAfter(Latest(seen)) == SessionAfter(Latest(cs))
    ensures ProfileAfter(Latest(seen)) == ProfileAfter(Latest(cs))
    ensures Used(cs, action) ==> Used(seen, action)
  {
    if |seen| < |cs| { assert cs[|cs| - 1].action.Internal?; }
    if Used(cs, action) {
      var i :| 0 <= i < |cs| && cs[i].action == action;
      assert i < |seen|;
      assert seen[i] == cs[i];
    }
  }

  lemma ProbingKeeps(s: State, p: nat, seen: seq<Control>, s': State)
    requires Inv(s) && p in s.procs && s.procs[p].pc == Probing(seen) && ControllerStep(s, p, s')
    ensures Inv(s')
  {
    hide Inv, LocksOk, OrdersOk, LedgerOk;
    Relies(s, p);
    var me, cs := s.procs[p], Controls(s.ledger);
    WorkerLockExcludes(s, p);
    if LastOn(seen) {
      DropKeepsLocks(s, p, Worker, Unwind({Controller}, Raised), s');
    } else {
      DropKeepsLocks(s, p, Worker, Retain, s');
      QuietFacts(seen, cs, me.task.action);
    }
    SilentStep(s, p, s');
  }

  lemma LaunchKeeps(s: State, p: nat, s': State)
    requires Inv(s) && p in s.procs && s.procs[p].pc.Launch? && ControllerStep(s, p, s')
    ensures Inv(s')
  {
    hide Inv, LocksOk, OrdersOk, LedgerOk;
    Relies(s, p);
    if s' == With(s, p, WantGate(AfterLaunch)) {
      MoveKeepsLocks(s, p, WantGate(AfterLaunch));
      QuietStep(s, p, s');
    } else {
      var child :| child !in s.procs && s' == Spawned(s, p, child);
      var t := With(s, p, Unwind({Controller}, Recorded));
      MoveKeepsLocks(s, p, Unwind({Controller}, Recorded));
      QuietStep(s, p, t);
      NewcomerKeeps(t, child, Work(SessionOf(s.procs[p].task)), s');
    }
  }

  lemma NewcomerKeeps(s: State, p: nat, task: Task, s': State)
    requires Inv(s) && Arrives(s, p, task, s')
    ensures Inv(s')
  {
    hide Fact, OrdersOk, LedgerOk;
    var cs := Controls(s.ledger);
    forall q | q in s'.procs
      ensures Fact(s'.procs[q], cs)
      ensures s'.procs[q].pc.Publish? ==> s'.procs[q].pc.snapshot == s.ledger
    {
      if q != p { assert s'.procs[q] == s.procs[q]; } else { NewcomerIsFree(task, cs); }
    }
    forall q, r | q in s'.procs && r in s'.procs && Opening(s'.procs[q].pc)
      ensures !Working(s'.procs[r])
    {
      if q != p { assert s'.procs[q] == s.procs[q]; }
      if r != p { assert s'.procs[r] == s.procs[r]; }
    }
  }

  lemma NewcomerIsFree(task: Task, cs: seq<Control>)
    ensures Fact(Proc(task, Requested, None), cs)
  {
  }

  lemma {:induction false} WorkerStepKeeps(s: State, p: nat, s': State)
    requires Inv(s) && p in s.procs && WorkerStep(s, p, s')
    ensures Inv(s')
  {
    hide Inv, LocksOk, OrdersOk, LedgerOk;
    Relies(s, p);
    var me, cs := s.procs[p], Controls(s.ledger);
    match me.pc
    case TryWorker =>
      if Worker in s.locks { MoveKeepsLocks(s, p, Finished(Raised)); } else { TakeKeepsLocks(s, p, Worker, Admission, s'); }
      QuietStep(s, p, s');
    case Admission => AdmissionKeeps(s, p, s');
    case Startup => StartupKeeps(s, p, s');
    case Run => RunKeeps(s, p, s');
    case WantEntry => TakeKeepsLocks(s, p, Submission, EntryCheck, s'); QuietStep(s, p, s');
    case EntryCheck => EntryCheckKeeps(s, p, s');
    case Mutate(increase) => MutateKeeps(s, p, s');
    case LeaveEntry => DropKeepsLocks(s, p, Submission, Run, s'); QuietStep(s, p, s');
  }

  lemma AdmissionKeeps(s: State, p: nat, s': State)
    requires Inv(s) && p in s.procs && s.procs[p].pc.Admission? && WorkerStep(s, p, s')
    ensures Inv(s')
  {
    hide Inv, LocksOk, OrdersOk, LedgerOk;
    Relies(s, p);
    var me, cs := s.procs[p], Controls(s.ledger);
    if GateOpen(cs, SessionOf(me.task)) {
      LatestRule(s.ledger, s.retained);
      OpenGateExcludes(s, SessionOf(me.task));
      AdmittedKeepsLocks(s, p, Latest(cs).value);
      SilentStep(s, p, s');
    } else {
      MoveKeepsLocks(s, p, Unwind({Worker}, Raised));
      QuietStep(s, p, s');
    }
  }

  lemma AdmittedKeepsLocks(s: State, p: nat, latest: Control)
    requires LocksOk(s) && p in s.procs && s.procs[p].pc.Admission?
    ensures LocksOk(Admitted(s, p, latest))
  {
    assert Held(Startup) == Held(Admission);
    hide Held;
  }

  lemma LatestRule(ledger: seq<Event>, retained: set<Profile>)
    requires LedgerOk(ledger, retained) && LastOn(Controls(ledger))
    ensures var latest := Latest(Controls(ledger)).value;
      latest.profile.Some? && latest.session == Opened(latest.action, latest.profile.value)
  {
    hide ValidLedger, EndsShut;
    assert ControlRule(Controls(ledger), |Controls(ledger)| - 1);
  }

  lemma StartupKeeps(s: State, p: nat, s': State)
    requires Inv(s) && p in s.procs && s.procs[p].pc.Startup? && WorkerStep(s, p, s')
    ensures Inv(s')
  {
    hide Inv, LocksOk, OrdersOk, LedgerOk;
    Relies(s, p);
    MoveKeepsLocks(s, p, s'.procs[p].pc);
    QuietStep(s, p, s');
  }

  lemma RunKeeps(s: State, p: nat, s': State)
    requires Inv(s) && p in s.procs && s.procs[p].pc.Run? && WorkerStep(s, p, s')
    ensures Inv(s')
  {
    hide Inv, LocksOk, OrdersOk, LedgerOk;
    Relies(s, p);
    MoveKeepsLocks(s, p, s'.procs[p].pc);
    QuietStep(s, p, s');
  }

  lemma EntryCheckKeeps(s: State, p: nat, s': State)
    requires Inv(s) && p in s.procs && s.procs[p].pc.EntryCheck? && WorkerStep(s, p, s')
    ensures Inv(s')
  {
    hide Inv, LocksOk, OrdersOk, LedgerOk;
    Relies(s, p);
    MoveKeepsLocks(s, p, s'.procs[p].pc);
    QuietStep(s, p, s');
  }

  lemma MutateKeeps(s: State, p: nat, s': State)
    requires Inv(s) && p in s.procs && s.procs[p].pc.Mutate? && WorkerStep(s, p, s')
    ensures Inv(s')
  {
    hide Inv, LocksOk, OrdersOk, LedgerOk;
    Relies(s, p);
    var increase, pc := s.procs[p].pc.increase, s'.procs[p].pc;
    assert s' == Ordered(s, p, increase, pc);
    MoveKeepsLocks(s, p, pc);
    LocksOnly(With(s, p, pc), s');
    OrderIsCovered(s.ledger, s.orders, Order(SessionOf(s.procs[p].task), increase, |s.ledger|));
    WorkerExcludes(s, p);
    SilentStep(s, p, s');
  }

  lemma WorkerExcludes(s: State, p: nat)
    requires Inv(s) && p in s.procs && Working(s.procs[p])
    ensures forall q :: q in s.procs ==> !Opening(s.procs[q].pc)
  {
    hide LedgerOk, LocksOk, OrdersOk, Fact, Opening, Working;
  }

  lemma OrderIsCovered(ledger: seq<Event>, orders: seq<Order>, order: Order)
    requires OrdersOk(ledger, orders) && order.after == |ledger|
    requires order.increase ==> GateOpen(Controls(ledger), order.session)
    ensures OrdersOk(ledger, orders + [order])
  {
    assert ledger[..|ledger|] == ledger;
  }

  lemma {:induction false} GateStepKeeps(s: State, p: nat, s': State)
    requires Inv(s) && p in s.procs && GateStep(s, p, s')
    ensures Inv(s')
  {
    hide Inv, LocksOk, OrdersOk, LedgerOk;
    Relies(s, p);
    var me, cs := s.procs[p], Controls(s.ledger);
    var session := SessionOf(me.task);
    match me.pc
    case WantGate(why) => TakeKeepsLocks(s, p, Submission, ReadGate(why), s'); QuietStep(s, p, s');
    case ReadGate(why) => ReadGateKeeps(s, p, why, s');
    case LeaveGate(why) => LeaveGateKeeps(s, p, why, s');
  }

  lemma ReadGateKeeps(s: State, p: nat, why: Closing, s': State)
    requires Inv(s) && p in s.procs && s.procs[p].pc == ReadGate(why) && GateStep(s, p, s')
    ensures Inv(s')
  {
    hide Inv, LocksOk, OrdersOk, LedgerOk;
    Relies(s, p);
    var session, cs := SessionOf(s.procs[p].task), Controls(s.ledger);
    if !GateOpen(cs, session) { assert cs[|cs| - 1].session == session && !cs[|cs| - 1].enabled; }
    MoveKeepsLocks(s, p, s'.procs[p].pc);
    QuietStep(s, p, s');
  }

  lemma LeaveGateKeeps(s: State, p: nat, why: Closing, s': State)
    requires Inv(s) && p in s.procs && s.procs[p].pc == LeaveGate(why) && GateStep(s, p, s')
    ensures Inv(s')
  {
    hide Inv, LocksOk, OrdersOk, LedgerOk;
    Relies(s, p);
    var me := s.procs[p];
    var end := Status(SessionOf(me.task), ModeOf(me), EndState(why));
    DropKeepsLocks(s, p, Submission, WantAppend(end, RecordEnd(why)), s');
    QuietStep(s, p, s');
  }

  lemma {:induction false} OtherStepKeeps(s: State, p: nat, s': State)
    requires Inv(s) && p in s.procs && OtherStep(s, p, s')
    ensures Inv(s')
  {
    hide Inv, LocksOk, OrdersOk, LedgerOk;
    Relies(s, p);
    match s.procs[p].pc
    case Requested => MoveKeepsLocks(s, p, s'.procs[p].pc); QuietStep(s, p, s');
    case TryInspect =>
      if Worker in s.locks { MoveKeepsLocks(s, p, Finished(Observed)); } else { TakeKeepsLocks(s, p, Worker, Inspecting, s'); }
      QuietStep(s, p, s');
    case Inspecting => DropKeepsLocks(s, p, Worker, Finished(Observed), s'); QuietStep(s, p, s');
    case Unwind(held, answer) =>
      if held == {} {
        MoveKeepsLocks(s, p, Finished(answer));
      } else {
        var l :| l in held && Drop(s, p, l, Unwind(held - {l}, answer), s');
        DropKeepsLocks(s, p, l, Unwind(held - {l}, answer), s');
      }
      QuietStep(s, p, s');
  }

  lemma RaiseKeeps(s: State, p: nat, s': State)
    requires Inv(s) && p in s.procs && Raise(s, p, s')
    ensures Inv(s')
  {
    hide Inv, LocksOk, OrdersOk, LedgerOk;
    Relies(s, p);
    MoveKeepsLocks(s, p, Unwind(Held(s.procs[p].pc), Raised));
    QuietStep(s, p, s');
  }

  lemma KilledKeeps(s: State, p: nat, s': State)
    requires Inv(s) && p in s.procs && Killed(s, p, s')
    ensures Inv(s')
  {
    hide Inv, LocksOk, OrdersOk, LedgerOk;
    Relies(s, p);
    KilledKeepsLocks(s, p, s');
    QuietStep(s, p, s');
  }

  lemma KilledKeepsLocks(s: State, p: nat, s': State)
    requires LocksOk(s) && p in s.procs && Killed(s, p, s')
    ensures LocksOk(s')
  {
    assert Held(Dead) == {};
    hide Held;
    forall q, m | q in s'.procs && m in Held(s'.procs[q].pc)
      ensures m in s'.locks && s'.locks[m] == q
    {
      assert q != p && s'.procs[q] == s.procs[q] && s.locks[m] == q;
    }
  }

  // ---------------------------------------------------------------- publication

  /** What a publication by `p` under its locks leaves true of every other process. */
  lemma OthersSurvive(s: State, p: nat, q: nat, e: Event, purpose: Purpose)
    requires Inv(s) && p in s.procs && q in s.procs && p != q
    requires s.procs[p].pc == Publish(e, purpose, s.ledger)
    ensures Fact(s.procs[q], Controls(s.ledger + [e]))
  {
    hide Inv, LocksOk, OrdersOk, LedgerOk, Held;
    Relies(s, p);
    Relies(s, q);
    var me, other, cs := s.procs[p], s.procs[q], Controls(s.ledger);
    ReadingsOfAppend(s.ledger, e);
    if e.Controlled? {
      LocksExclude(s, p, q);
      PublishHolds(e, purpose, s.ledger);
      if purpose.SwitchOn? { OpeningExcludes(s, p, q); }
      match purpose
      case SwitchOn => SwitchOnSpares(me, other, cs);
      case SwitchOff => SwitchOffSpares(me, other, cs, e.control);
      case ShutGate(why) => ShutGateSpares(me, other, cs, e.control, why);
      case _ =>
    }
  }

  lemma PublishHolds(e: Event, purpose: Purpose, ledger: seq<Event>)
    ensures Around(purpose) <= Held(Publish(e, purpose, ledger))
  {
  }

  lemma OpeningExcludes(s: State, p: nat, q: nat)
    requires Inv(s) && p in s.procs && q in s.procs && Opening(s.procs[p].pc)
    ensures !Working(s.procs[q])
  {
    hide LedgerOk, LocksOk, OrdersOk, Fact, Opening, Working;
  }

  /** Opening a session is invisible to everyone outside the controller lock: no worker is admitted. */
  lemma SwitchOnSpares(me: Proc, other: Proc, cs: seq<Control>)
    requires me.task.Enable? && Fact(other, cs) && Controller !in Held(other.pc) && !Working(other)
    ensures Fact(other, cs + [OnControl(me.task)])
  {
  }

  lemma SwitchOffSpares(me: Proc, other: Proc, cs: seq<Control>, c: Control)
    requires me.task.Disable? && c == OffControl(me.task, Latest(cs))
    requires Fact(other, cs) && Controller !in Held(other.pc) && Submission !in Held(other.pc)
    ensures Fact(other, cs + [c])
  {
    ShutGrows(cs, c, SessionOf(other.task));
  }

  lemma ShutGateSpares(me: Proc, other: Proc, cs: seq<Control>, c: Control, why: Closing)
    requires Fact(other, cs) && Submission !in Held(other.pc)
    requires GateOpen(cs, SessionOf(me.task)) && c == ClosingControl(Latest(cs).value, SessionOf(me.task))
    ensures Fact(other, cs + [c])
  {
    var session := SessionOf(other.task);
    ShutGrows(cs, c, session);
    match other.task
    case Enable(action, _, _) => UsedGrows(cs, c, action); SeenStaysQuiet(other, cs, c);
    case Disable(action, _) => UsedGrows(cs, c, action); SeenStaysQuiet(other, cs, c);
    case _ =>
  }

  lemma SeenStaysQuiet(other: Proc, cs: seq<Control>, c: Control)
    requires cs != [] && LastOn(cs) && c.action.Internal?
    requires c.session == cs[|cs| - 1].session && c.profile == cs[|cs| - 1].profile
    ensures other.pc.Decide? && Quiet(other.pc.seen, cs) ==> Quiet(other.pc.seen, cs + [c])
    ensures other.pc.Probing? && Quiet(other.pc.seen, cs) ==> Quiet(other.pc.seen, cs + [c])
  {
  }

  /** What the publisher itself may rely on once its event is in the ledger. */
  lemma PublisherSettles(me: Proc, e: Event, purpose: Purpose, ledger: seq<Event>)
    requires Fact(me, Controls(ledger)) && me.pc == Publish(e, purpose, ledger)
    ensures Fact(me.(pc := LeaveLedger(true, purpose)), Controls(ledger + [e]))
  {
    var cs := Controls(ledger);
    ReadingsOfAppend(ledger, e);
    if e.Controlled? { ShutGrows(cs, e.control, SessionOf(me.task)); }
  }

  lemma PublisherRefused(me: Proc, e: Event, purpose: Purpose, ledger: seq<Event>)
    requires Fact(me, Controls(ledger)) && me.pc == Publish(e, purpose, ledger)
    ensures Fact(me.(pc := LeaveLedger(false, purpose)), Controls(ledger))
  {
  }

  lemma LedgerGrows(me: Proc, e: Event, purpose: Purpose, ledger: seq<Event>, retained: set<Profile>)
    requires LedgerOk(ledger, retained) && Fact(me, Controls(ledger)) && me.pc == Publish(e, purpose, ledger)
    requires ValidCandidate(e, ledger, retained)
    ensures LedgerOk(ledger + [e], retained)
  {
    hide ValidCandidate;
    var cs, longer := Controls(ledger), ledger + [e];
    ValidAppend(ledger, e, retained);
    ReadingsOfAppend(ledger, e);
    if e.Controlled? { JustifiedFits(me, e, purpose, cs); }
    assert e.Status? && Terminal(e.state) ==> Shut(cs, e.session);
    forall n | 0 <= n < |longer| && longer[n].Status? && Terminal(longer[n].state)
      ensures Shut(Controls(longer[..n]), longer[n].session)
    {
      assert longer[..n] == ledger[..n];
      assert ledger[..|ledger|] == ledger;
    }
  }

  lemma OrdersSurvive(ledger: seq<Event>, e: Event, orders: seq<Order>)
    requires OrdersOk(ledger, orders)
    ensures OrdersOk(ledger + [e], orders)
  {
    forall k | 0 <= k < |orders| && orders[k].increase
      ensures orders[k].after <= |ledger + [e]|
      ensures GateOpen(Controls((ledger + [e])[..orders[k].after]), orders[k].session)
    {
      assert (ledger + [e])[..orders[k].after] == ledger[..orders[k].after];
    }
  }

  lemma OnePublisher(s: State, p: nat, q: nat)
    requires LocksOk(s) && p in s.procs && q in s.procs && p != q && s.procs[p].pc.Publish?
    ensures !s.procs[q].pc.Publish?
  {
    LocksExclude(s, p, q);
    assert Ledger in Held(s.procs[p].pc);
  }

  lemma PublishedKeeps(s: State, p: nat, e: Event, purpose: Purpose, s': State)
    requires Inv(s) && p in s.procs && s.procs[p].pc == Publish(e, purpose, s.ledger)
    requires ValidCandidate(e, s.ledger, s.retained)
    requires s' == With(s, p, LeaveLedger(true, purpose)).(ledger := s.ledger + [e])
    ensures Inv(s')
  {
    hide LocksOk, OrdersOk, LedgerOk, Fact, Held, ValidCandidate;
    Relies(s, p);
    var me := s.procs[p];
    LedgerGrows(me, e, purpose, s.ledger, s.retained);
    OrdersSurvive(s.ledger, e, s.orders);
    PublishMoves(s, p, LeaveLedger(true, purpose));
    LocksOnly(With(s, p, LeaveLedger(true, purpose)), s');
    PublisherSettles(me, e, purpose, s.ledger);
    forall q | q in s'.procs
      ensures Fact(s'.procs[q], Controls(s'.ledger))
      ensures s'.procs[q].pc.Publish? ==> s'.procs[q].pc.snapshot == s'.ledger
    {
      if q != p {
        OthersSurvive(s, p, q, e, purpose);
        OnePublisher(s, p, q);
      }
    }
    SameSides(s, p, LeaveLedger(true, purpose));
  }

  lemma PublishMoves(s: State, p: nat, pc: Pc)
    requires LocksOk(s) && p in s.procs && s.procs[p].pc.Publish?
    requires pc.LeaveLedger? && pc.purpose == s.procs[p].pc.purpose
    ensures LocksOk(With(s, p, pc))
  {
    MoveKeepsLocks(s, p, pc);
  }

  /** Leaving the ledger lock neither admits a worker nor starts an opening. */
  lemma SameSides(s: State, p: nat, pc: Pc)
    requires ProcsOk(s) && p in s.procs && s.procs[p].pc.Publish?
    requires pc.LeaveLedger? && pc.purpose == s.procs[p].pc.purpose
    ensures forall q, r :: q in s.procs && r in s.procs && Opening(With(s, p, pc).procs[q].pc) ==>
              !Working(With(s, p, pc).procs[r])
  {
    var t := With(s, p, pc);
    assert Working(t.procs[p]) == Working(s.procs[p]) && !Opening(pc);
    hide Fact, Opening, Working;
    forall q, r | q in s.procs && r in s.procs && Opening(t.procs[q].pc)
      ensures !Working(t.procs[r])
    {
      assert q != p && t.procs[q] == s.procs[q];
      if r != p { assert t.procs[r] == s.procs[r]; }
    }
  }

  lemma {:induction false} AppendStepKeeps(s: State, p: nat, s': State)
    requires Inv(s) && p in s.procs && AppendStep(s, p, s')
    ensures Inv(s')
  {
    hide Inv, LocksOk, OrdersOk, LedgerOk, ValidCandidate;
    Relies(s, p);
    match s.procs[p].pc
    case WantAppend(e, purpose) => TakeKeepsLocks(s, p, Ledger, ReadLedger(e, purpose), s'); QuietStep(s, p, s');
    case ReadLedger(e, purpose) => MoveKeepsLocks(s, p, Publish(e, purpose, s.ledger)); QuietStep(s, p, s');
    case Publish(e, purpose, snapshot) =>
      if ValidCandidate(e, snapshot, s.retained) {
        PublishedKeeps(s, p, e, purpose, s');
      } else {
        PublishMoves(s, p, LeaveLedger(false, purpose));
        PublisherRefused(s.procs[p], e, purpose, s.ledger);
        QuietStep(s, p, s');
      }
    case LeaveLedger(accepted, purpose) => LeaveLedgerKeeps(s, p, accepted, purpose, s');
  }

  lemma LeaveLedgerKeeps(s: State, p: nat, accepted: bool, purpose: Purpose, s': State)
    requires Inv(s) && p in s.procs && s.procs[p].pc == LeaveLedger(accepted, purpose) && AppendStep(s, p, s')
    ensures Inv(s')
  {
    hide Inv, LocksOk, OrdersOk, LedgerOk;
    Relies(s, p);
    DropKeepsLocks(s, p, Ledger, Continue(accepted, purpose), s');
    QuietStep(s, p, s');
  }

  // ---------------------------------------------------------------- every run

  lemma NextKeeps(s: State, s': State)
    requires Inv(s) && Next(s, s')
    ensures Inv(s')
  {
    hide Inv, ControllerStep, WorkerStep, GateStep, AppendStep, OtherStep;
    if p, task :| Arrives(s, p, task, s') {
      NewcomerKeeps(s, p, task, s');
    } else {
      var p :| p in s.procs && (ProcStep(s, p, s') || Raise(s, p, s') || Killed(s, p, s'));
      if ControllerStep(s, p, s') { ControllerStepKeeps(s, p, s'); }
      else if WorkerStep(s, p, s') { WorkerStepKeeps(s, p, s'); }
      else if GateStep(s, p, s') { GateStepKeeps(s, p, s'); }
      else if AppendStep(s, p, s') { AppendStepKeeps(s, p, s'); }
      else if OtherStep(s, p, s') { OtherStepKeeps(s, p, s'); }
      else if Raise(s, p, s') { RaiseKeeps(s, p, s'); }
      else { KilledKeeps(s, p, s'); }
    }
  }

  /** The invariant holds in every state of every run. */
  lemma {:induction false} EveryState(run: seq<State>, i: nat)
    requires IsRun(run) && i < |run|
    ensures Inv(run[i])
  {
    if i > 0 {
      EveryState(run, i - 1);
      assert Next(run[i - 1], run[i]);
      NextKeeps(run[i - 1], run[i]);
    }
  }
}
