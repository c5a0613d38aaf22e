/** The inductive invariant of the trading protocol: what the ledger always looks
    like, and what each process may rely on at each point of its program. */
module TradingInvariant {
  import opened Options
  import opened TradingLedger
  import opened TradingProtocol

  // ---------------------------------------------------------------- the ledger

  predicate LastOn(cs: seq<Control>) {
    cs != [] && cs[|cs| - 1].enabled
  }

  /** The session is the latest control's. */
  predicate Current(cs: seq<Control>, session: Session) {
    cs != [] && cs[|cs| - 1].session == session
  }

  /** The session's entry gate has been closed by some control. */
  ghost predicate Shut(cs: seq<Control>, session: Session) {
    exists i :: 0 <= i < |cs| && cs[i].session == session && !cs[i].enabled
  }

  /** Only an operator switches on, for a session named after that very request and only
      when the last control is off; every other control switches the last session off. */
  ghost predicate ControlRule(cs: seq<Control>, i: nat)
    requires i < |cs|
  {
    var c := cs[i];
    if c.enabled then
      && c.action.Operator? && c.profile.Some? && c.session == Opened(c.action, c.profile.value)
      && c.profile.value.mode == Paper
      && !LastOn(cs[..i])
    else
      && (c.action.Internal? ==> c.action == Internal(c.session))
      && c.session == SessionAfter(Latest(cs[..i])) && c.profile == ProfileAfter(Latest(cs[..i]))
  }

  ghost predicate Alternating(cs: seq<Control>) {
    && (forall i :: 0 <= i < |cs| ==> ControlRule(cs, i))
    && (forall i, j :: 0 <= i < j < |cs| ==> cs[i].action != cs[j].action)
  }

  /** A terminal status is recorded only after its session's gate was closed. */
  ghost predicate EndsShut(ledger: seq<Event>) {
    forall n :: 0 <= n < |ledger| && ledger[n].Status? && Terminal(ledger[n].state) ==>
      Shut(Controls(ledger[..n]), ledger[n].session)
  }

  // ---------------------------------------------------------------- the processes

  /** Past the admission check of `run_worker`, and still holding the worker lock. */
  predicate Working(me: Proc) {
    me.task.Work? && me.profile.Some? && Worker in Held(me.pc)
  }

  /** `enable_trading` has decided to start a session and has not recorded it yet. */
  predicate Opening(pc: Pc) {
    match pc
    case Retain => true
    case WantAppend(_, purpose) => purpose.SwitchOn?
    case ReadLedger(_, purpose) => purpose.SwitchOn?
    case Publish(_, purpose, _) => purpose.SwitchOn?
    case _ => false
  }

  predicate Operated(task: Task) {
    match task
    case Enable(action, profile, _) => action.Operator? && profile.mode == Paper
    case Disable(action, _) => action.Operator?
    case _ => false
  }

  /** Since `seen` was read under the controller lock, at most a worker closed the session that was on. */
  ghost predicate Quiet(seen: seq<Control>, cs: seq<Control>) {
    && seen <= cs
    && (!LastOn(seen) ==> seen == cs)
    && (forall i :: |seen| <= i < |cs| ==>
          && cs[i].action.Internal?
          && cs[i].session == SessionAfter(Latest(seen)) && cs[i].profile == ProfileAfter(Latest(seen)))
  }

  predicate Clear(task: Task, cs: seq<Control>) {
    task.Enable? && Operated(task) && !LastOn(cs) && !Used(cs, task.action)
  }

  predicate Starter(me: Proc, cs: seq<Control>) {
    me.task.Enable? && Operated(me.task) && Current(cs, SessionOf(me.task))
  }

  /** The process closing a gate: the enabler whose launch failed, or the admitted worker. */
  predicate Closer(me: Proc, why: Closing, cs: seq<Control>) {
    if why.AfterLaunch? then Starter(me, cs) else Working(me)
  }

  ghost predicate Justified(me: Proc, e: Event, purpose: Purpose, cs: seq<Control>) {
    match purpose
    case SwitchOn => Clear(me.task, cs) && e == Controlled(OnControl(me.task))
    case SwitchOff =>
      && me.task.Disable? && Operated(me.task) && !Used(cs, me.task.action)
      && e == Controlled(OffControl(me.task, Latest(cs)))
    case ShutGate(why) =>
      && Closer(me, why, cs) && GateOpen(cs, SessionOf(me.task))
      && e == Controlled(ClosingControl(Latest(cs).value, SessionOf(me.task)))
    case RecordEnd(why) =>
      && Closer(me, why, cs) && Shut(cs, SessionOf(me.task))
      && e == Status(SessionOf(me.task), ModeOf(me), EndState(why))
    case RecordStart => Working(me) && e == Status(SessionOf(me.task), ModeOf(me), Starting)
    case Note => Working(me) && RunnerEvent(e, me)
    case Intend(increase) => Working(me) && e.Guard? && (increase ==> LastOn(cs))
    case RecordResult => Working(me) && e.Guard?
  }

  ghost predicate Settled(me: Proc, accepted: bool, purpose: Purpose, cs: seq<Control>) {
    match purpose
    case SwitchOn => accepted ==> Starter(me, cs)
    case SwitchOff => true
    case ShutGate(why) => accepted ==> Closer(me, why, cs) && Shut(cs, SessionOf(me.task))
    case RecordEnd(why) => true
    case Intend(increase) => Working(me) && (accepted && increase ==> LastOn(cs))
    case _ => Working(me)
  }

  ghost predicate Fact(me: Proc, cs: seq<Control>) {
    && (Working(me) ==>
          Current(cs, SessionOf(me.task)) && cs[|cs| - 1].profile == me.profile && SessionOf(me.task).Opened?)
    && (me.task.Enable? ==> me.profile.None?)
    && match me.pc
       case WantController => Operated(me.task)
       case WantRecovery => Operated(me.task)
       case Recovering => Operated(me.task)
       case ReadControls => Operated(me.task)
       case Decide(seen) => Operated(me.task) && Quiet(seen, cs)
       case Probing(seen) => me.task.Enable? && Operated(me.task) && Quiet(seen, cs) && !Used(seen, me.task.action)
       case Retain => Clear(me.task, cs)
       case WantOff(current) =>
         && me.task.Disable? && Operated(me.task) && !Used(cs, me.task.action)
         && SessionAfter(current) == SessionAfter(Latest(cs)) && ProfileAfter(current) == ProfileAfter(Latest(cs))
       case Launch => Starter(me, cs)
       case Admission => me.task.Work? && me.profile.None?
       case Startup => Working(me)
       case Run => Working(me)
       case WantEntry => Working(me)
       case EntryCheck => Working(me)
       case Mutate(increase) => Working(me) && (increase ==> LastOn(cs))
       case LeaveEntry => Working(me)
       case WantGate(why) => Closer(me, why, cs)
       case ReadGate(why) => Closer(me, why, cs)
       case LeaveGate(why) => Closer(me, why, cs) && Shut(cs, SessionOf(me.task))
       case WantAppend(e, purpose) => Justified(me, e, purpose, cs)
       case ReadLedger(e, purpose) => Justified(me, e, purpose, cs)
       case Publish(e, purpose, _) => Justified(me, e, purpose, cs)
       case LeaveLedger(accepted, purpose) => Settled(me, accepted, purpose, cs)
       case TryWorker => me.task.Work? && me.profile.None?
       case Requested => me.profile.None?
       case TryInspect => me.profile.None?
       case Inspecting => me.profile.None?
       case _ => true
  }

  // ---------------------------------------------------------------- the whole state

  ghost predicate LocksOk(s: State) {
    && (forall l :: l in s.locks ==> s.locks[l] in s.procs && l in Held(s.procs[s.locks[l]].pc))
    && (forall p, l :: p in s.procs && l in Held(s.procs[p].pc) ==> l in s.locks && s.locks[l] == p)
  }

  /** An increase was only ever sent while the gate of its session was open. */
  ghost predicate OrdersOk(ledger: seq<Event>, orders: seq<Order>) {
    forall k :: 0 <= k < |orders| && orders[k].increase ==>
      && orders[k].after <= |ledger|
      && GateOpen(Controls(ledger[..orders[k].after]), orders[k].session)
  }

  ghost predicate LedgerOk(ledger: seq<Event>, retained: set<Profile>) {
    ValidLedger(ledger, retained) && Alternating(Controls(ledger)) && EndsShut(ledger)
  }

  ghost predicate ProcsOk(s: State) {
    && (forall p :: p in s.procs ==> Fact(s.procs[p], Controls(s.ledger)))
    && (forall p :: p in s.procs && s.procs[p].pc.Publish? ==> s.procs[p].pc.snapshot == s.ledger)
    && (forall p, q :: p in s.procs && q in s.procs && Opening(s.procs[p].pc) ==> !Working(s.procs[q]))
  }

  ghost predicate Inv(s: State) {
    LedgerOk(s.ledger, s.retained) && LocksOk(s) && OrdersOk(s.ledger, s.orders) && ProcsOk(s)
  }

  // ---------------------------------------------------------------- consequences of alternation

  /** A control that switches an opened session off comes after the one that opened it. */
  lemma {:induction false} OpenedBefore(cs: seq<Control>, i: nat)
    requires Alternating(cs) && i < |cs| && cs[i].session.Opened?
    ensures exists j :: 0 <= j <= i && cs[j].enabled && cs[j].session == cs[i].session
  {
    assert ControlRule(cs, i);
    if !cs[i].enabled {
      assert cs[..0] == [];
      assert i > 0;
      assert Latest(cs[..i]) == Some(cs[i - 1]);
      OpenedBefore(cs, i - 1);
    }
  }

  /** An opened session is switched on at one place only. */
  lemma OpenedOnce(cs: seq<Control>, i: nat, j: nat)
    requires Alternating(cs) && i < |cs| && j < |cs|
    requires cs[i].enabled && cs[j].enabled && cs[i].session == cs[j].session
    ensures i == j
  {
    assert ControlRule(cs, i) && ControlRule(cs, j);
    assert cs[i].action == cs[j].action;
  }

  /** Once a session is shut, no later control of that session is on. */
  lemma ShutForGood(cs: seq<Control>, i: nat, j: nat)
    requires Alternating(cs) && i <= j < |cs|
    requires cs[i].session.Opened? && !cs[i].enabled && cs[j].session == cs[i].session
    ensures !cs[j].enabled
  {
    OpenedBefore(cs, i);
    if cs[j].enabled {
      var k :| 0 <= k <= i && cs[k].enabled && cs[k].session == cs[i].session;
      OpenedOnce(cs, k, j);
    }
  }

  lemma ShutIsClosed(cs: seq<Control>, session: Session)
    requires Alternating(cs) && session.Opened? && Shut(cs, session)
    ensures !GateOpen(cs, session)
  {
    if GateOpen(cs, session) {
      var i :| 0 <= i < |cs| && cs[i].session == session && !cs[i].enabled;
      ShutForGood(cs, i, |cs| - 1);
    }
  }

  /** The reserved id of an open session has never been used: its own close cannot collide. */
  lemma InternalIsFresh(cs: seq<Control>, session: Session)
    requires Alternating(cs) && session.Opened? && GateOpen(cs, session)
    ensures !Used(cs, Internal(session))
  {
    if Used(cs, Internal(session)) {
      var i :| 0 <= i < |cs| && cs[i].action == Internal(session);
      assert ControlRule(cs, i);
      assert Shut(cs, session);
      ShutIsClosed(cs, session);
    }
  }

  // ---------------------------------------------------------------- one more control

  lemma AlternatingGrows(cs: seq<Control>, c: Control)
    requires Alternating(cs) && !Used(cs, c.action)
    requires ControlRule(cs + [c], |cs|)
    ensures Alternating(cs + [c])
  {
    var longer := cs + [c];
    forall i | 0 <= i < |longer|
      ensures ControlRule(longer, i)
    {
      assert longer[..i] == cs[..i];
      if i < |cs| { assert ControlRule(cs, i); }
    }
  }

  lemma UsedGrows(cs: seq<Control>, c: Control, action: Action)
    ensures Used(cs + [c], action) <==> Used(cs, action) || c.action == action
  {
    var longer := cs + [c];
    if Used(cs, action) {
      var i :| 0 <= i < |cs| && cs[i].action == action;
      assert longer[i].action == action;
    }
    if c.action == action { assert longer[|cs|].action == action; }
  }

  lemma ShutGrows(cs: seq<Control>, c: Control, session: Session)
    ensures Shut(cs, session) ==> Shut(cs + [c], session)
    ensures !c.enabled && c.session == session ==> Shut(cs + [c], session)
  {
    var longer := cs + [c];
    if Shut(cs, session) {
      var i :| 0 <= i < |cs| && cs[i].session == session && !cs[i].enabled;
      assert longer[i].session == session;
    }
    assert longer[|cs|] == c;
  }

  /** Every control a process has reason to append fits the alternation. */
  lemma JustifiedFits(me: Proc, e: Event, purpose: Purpose, cs: seq<Control>)
    requires Alternating(cs) && Fact(me, cs) && Justified(me, e, purpose, cs) && e.Controlled?
    ensures Alternating(cs + [e.control])
    ensures !Used(cs, e.control.action)
  {
    var longer := cs + [e.control];
    assert longer[..|cs|] == cs;
    match purpose
    case SwitchOn => AlternatingGrows(cs, e.control);
    case SwitchOff => AlternatingGrows(cs, e.control);
    case ShutGate(why) =>
      assert SessionOf(me.task).Opened?;
      InternalIsFresh(cs, SessionOf(me.task));
      AlternatingGrows(cs, e.control);
    case _ =>
  }
}
