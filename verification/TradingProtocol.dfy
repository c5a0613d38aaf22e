/** The guarded trading runtime as a state machine: any number of enable, disable,
    worker and status processes interleave over one ledger and four advisory locks,
    and any of them may raise or be killed between two steps.  A step is one lock
    operation, one read of the ledger, one publication, or one broker call. */
module TradingProtocol {
  import opened Options
  import opened TradingLedger

  datatype Lock = Controller | Worker | Submission | Ledger

  function Rank(l: Lock): nat {
    match l
    case Controller => 0
    case Worker => 1
    case Submission => 2
    case Ledger => 3
  }

  datatype Task =
    | Enable(action: Action, profile: Profile, operator: string)
    | Disable(action: Action, operator: string)
    | Work(session: Session)
    | Inspect

  /** Why a session's entry gate is being closed, which fixes the status recorded next. */
  datatype Closing = AfterLaunch | AfterStartup | AfterRun | AfterStop

  /** How an operation ends: with an exception, with the control it recorded, with one that an earlier
      use of the same action recorded, as a worker that recorded its end, or as a status report. */
  datatype Answer = Raised | Recorded | Repeated | Ended(why: Closing) | Observed

  /** What a process appends an event for, and so where it continues afterwards. */
  datatype Purpose =
    | SwitchOn | SwitchOff | ShutGate(why: Closing) | RecordEnd(why: Closing)
    | RecordStart | Note | Intend(increase: bool) | RecordResult

  datatype Pc =
    | Requested
    // enable_trading and disable_trading
    | WantController | WantRecovery | Recovering | ReadControls
    | Decide(seen: seq<Control>) | Probing(seen: seq<Control>) | Retain
    | WantOff(current: Option<Control>) | Launch
    // run_worker, and the runner's order submission
    | TryWorker | Admission | Startup | Run
    | WantEntry | EntryCheck | Mutate(increase: bool) | LeaveEntry
    // close_session_entry_gate
    | WantGate(why: Closing) | ReadGate(why: Closing) | LeaveGate(why: Closing)
    // RuntimeLedger.append
    | WantAppend(event: Event, purpose: Purpose) | ReadLedger(event: Event, purpose: Purpose)
    | Publish(event: Event, purpose: Purpose, snapshot: seq<Event>)
    | LeaveLedger(accepted: bool, purpose: Purpose)
    // runtime_status
    | TryInspect | Inspecting
    | Unwind(held: set<Lock>, answer: Answer) | Finished(answer: Answer) | Dead

  /** `profile` is the profile a worker read when it was admitted. */
  datatype Proc = Proc(task: Task, pc: Pc, profile: Option<Profile>)

  /** A broker mutation, made when the ledger held `after` events. */
  datatype Order = Order(session: Session, increase: bool, after: nat)

  datatype State = State(
    ledger: seq<Event>, retained: set<Profile>, locks: map<Lock, nat>, procs: map<nat, Proc>, orders: seq<Order>)

  // ---------------------------------------------------------------- locks held and wanted

  function Owner(why: Closing): set<Lock> {
    if why.AfterLaunch? then {Controller} else {Worker}
  }

  function Around(purpose: Purpose): set<Lock> {
    match purpose
    case SwitchOn => {Controller}
    case SwitchOff => {Controller, Submission}
    case ShutGate(why) => Owner(why) + {Submission}
    case RecordEnd(why) => Owner(why)
    case RecordStart => {Worker}
    case Note => {Worker}
    case Intend(_) => {Worker, Submission}
    case RecordResult => {Worker, Submission}
  }

  function Held(pc: Pc): set<Lock> {
    match pc
    case WantRecovery => {Controller}
    case Recovering => {Controller, Ledger}
    case ReadControls => {Controller}
    case Decide(_) => {Controller}
    case Probing(_) => {Controller, Worker}
    case Retain => {Controller}
    case WantOff(_) => {Controller}
    case Launch => {Controller}
    case Admission => {Worker}
    case Startup => {Worker}
    case Run => {Worker}
    case WantEntry => {Worker}
    case EntryCheck => {Worker, Submission}
    case Mutate(_) => {Worker, Submission}
    case LeaveEntry => {Worker, Submission}
    case WantGate(why) => Owner(why)
    case ReadGate(why) => Owner(why) + {Submission}
    case LeaveGate(why) => Owner(why) + {Submission}
    case WantAppend(_, purpose) => Around(purpose)
    case ReadLedger(_, purpose) => Around(purpose) + {Ledger}
    case Publish(_, purpose, _) => Around(purpose) + {Ledger}
    case LeaveLedger(_, purpose) => Around(purpose) + {Ledger}
    case Inspecting => {Worker}
    case Unwind(held, _) => held
    case _ => {}
  }

  /** The lock a process is blocked on; the worker lock is only ever tried, never waited for. */
  function Wants(pc: Pc): Option<Lock> {
    match pc
    case WantController => Some(Controller)
    case WantRecovery => Some(Ledger)
    case WantOff(_) => Some(Submission)
    case WantEntry => Some(Submission)
    case WantGate(_) => Some(Submission)
    case WantAppend(_, _) => Some(Ledger)
    case _ => None
  }

  // ---------------------------------------------------------------- the events processes append

  function SessionOf(task: Task): Session {
    match task
    case Enable(action, profile, _) => Opened(action, profile)
    case Work(session) => session
    case _ => Vacant
  }

  function SessionAfter(latest: Option<Control>): Session {
    if latest.Some? then latest.value.session else Vacant
  }

  function ProfileAfter(latest: Option<Control>): Option<Profile> {
    if latest.Some? then latest.value.profile else None
  }

  function OnControl(task: Task): Control
    requires task.Enable?
  {
    Control(task.action, SessionOf(task), Some(task.profile), true, task.operator)
  }

  function OffControl(task: Task, current: Option<Control>): Control
    requires task.Disable?
  {
    Control(task.action, SessionAfter(current), ProfileAfter(current), false, task.operator)
  }

  function ClosingControl(current: Control, session: Session): Control {
    current.(action := Internal(session), enabled := false)
  }

  function EndState(why: Closing): WorkerState {
    match why
    case AfterRun => Failed
    case AfterStop => Stopped
    case _ => StartFailed
  }

  function ModeOf(me: Proc): Mode {
    if me.profile.Some? then me.profile.value.mode else Paper
  }

  /** `entries_enabled`, as far as the ledger decides it. */
  predicate GateOpen(controls: seq<Control>, session: Session) {
    var latest := Latest(controls);
    latest.Some? && latest.value.enabled && latest.value.session == session
  }

  /** What the runner may report: progress, or any guard receipt, under its own session. */
  predicate RunnerEvent(e: Event, me: Proc) {
    match e
    case Controlled(_) => false
    case Status(session, mode, state) =>
      session == SessionOf(me.task) && mode == ModeOf(me) && state in {Running, Draining}
    case Guard(session, mode, _) => session == SessionOf(me.task) && mode == ModeOf(me)
  }

  // ---------------------------------------------------------------- steps

  function With(s: State, p: nat, pc: Pc): State
    requires p in s.procs
  {
    s.(procs := s.procs[p := s.procs[p].(pc := pc)])
  }

  function Taking(s: State, p: nat, l: Lock, pc: Pc): State
    requires p in s.procs
  {
    With(s, p, pc).(locks := s.locks[l := p])
  }

  function Dropping(s: State, p: nat, l: Lock, pc: Pc): State
    requires p in s.procs
  {
    With(s, p, pc).(locks := s.locks - {l})
  }

  predicate Take(s: State, p: nat, l: Lock, pc: Pc, s': State)
    requires p in s.procs
  {
    l !in s.locks && s' == Taking(s, p, l, pc)
  }

  predicate Drop(s: State, p: nat, l: Lock, pc: Pc, s': State)
    requires p in s.procs
  {
    s' == Dropping(s, p, l, pc)
  }

  /** Where a process continues once its append has been accepted or has raised. */
  function Continue(accepted: bool, purpose: Purpose): Pc {
    match purpose
    case SwitchOn => if accepted then Launch else Unwind(Around(purpose), Raised)
    case SwitchOff => Unwind(Around(purpose), if accepted then Recorded else Raised)
    case ShutGate(why) => if accepted then LeaveGate(why) else Unwind(Around(purpose), Raised)
    case RecordEnd(why) => Unwind(Around(purpose), if accepted && !why.AfterLaunch? then Ended(why) else Raised)
    case RecordStart => if accepted then Run else Unwind(Around(purpose), Raised)
    case Note => Run
    case Intend(increase) => if accepted then Mutate(increase) else LeaveEntry
    case RecordResult => LeaveEntry
  }

  /** The control that first used an action. */
  function FirstUse(controls: seq<Control>, action: Action): Option<Control> {
    if controls == [] then None
    else if controls[0].action == action then Some(controls[0])
    else FirstUse(controls[1..], action)
  }

  /** A used action is accepted again for the very same request, and is a conflict for any other. */
  function RetryAnswer(task: Task, controls: seq<Control>): Answer {
    match task
    case Enable(action, profile, operator) =>
      var previous := FirstUse(controls, action);
      if previous.Some? && previous.value.enabled && previous.value.profile == Some(profile) && previous.value.operator == operator
      then Repeated else Raised
    case Disable(action, operator) =>
      var previous := FirstUse(controls, action);
      if previous.Some? && !previous.value.enabled && previous.value.operator == operator then Repeated else Raised
    case _ => Raised
  }

  ghost predicate ControllerStep(s: State, p: nat, s': State)
    requires p in s.procs
  {
    var me := s.procs[p];
    match me.pc
    case WantController => Take(s, p, Controller, WantRecovery, s')
    case WantRecovery => Take(s, p, Ledger, Recovering, s')
    case Recovering => Drop(s, p, Ledger, ReadControls, s')
    case ReadControls => s' == With(s, p, Decide(Controls(s.ledger)))
    case Decide(seen) =>
      (match me.task
       case Enable(action, _, _) =>
         if Used(seen, action) then s' == With(s, p, Unwind({Controller}, RetryAnswer(me.task, seen)))
         else if Worker in s.locks then s' == With(s, p, Unwind({Controller}, Raised))
         else Take(s, p, Worker, Probing(seen), s')
       case Disable(action, _) =>
         s' == With(s, p, if Used(seen, action) then Unwind({Controller}, RetryAnswer(me.task, seen)) else WantOff(Latest(seen)))
       case _ => false)
    case Probing(seen) =>
      var latest := Latest(seen);
      Drop(s, p, Worker, if latest.Some? && latest.value.enabled then Unwind({Controller}, Raised) else Retain, s')
    case Retain =>
      && me.task.Enable?
      && s' == With(s, p, WantAppend(Controlled(OnControl(me.task)), SwitchOn))
               .(retained := s.retained + {me.task.profile})
    case WantOff(current) =>
      me.task.Disable? && Take(s, p, Submission, WantAppend(Controlled(OffControl(me.task, current)), SwitchOff), s')
    case Launch =>
      || s' == With(s, p, WantGate(AfterLaunch))
      || exists child :: child !in s.procs && s' == Spawned(s, p, child)
    case _ => false
  }

  function Spawned(s: State, p: nat, child: nat): State
    requires p in s.procs
  {
    var t := With(s, p, Unwind({Controller}, Recorded));
    t.(procs := t.procs[child := Proc(Work(SessionOf(s.procs[p].task)), Requested, None)])
  }

  function Admitted(s: State, p: nat, latest: Control): State
    requires p in s.procs
  {
    s.(procs := s.procs[p := s.procs[p].(pc := Startup, profile := latest.profile)])
  }

  function Ordered(s: State, p: nat, increase: bool, next: Pc): State
    requires p in s.procs
  {
    With(s, p, next).(orders := s.orders + [Order(SessionOf(s.procs[p].task), increase, |s.ledger|)])
  }

  ghost predicate WorkerStep(s: State, p: nat, s': State)
    requires p in s.procs
  {
    var me := s.procs[p];
    var session := SessionOf(me.task);
    var controls := Controls(s.ledger);
    match me.pc
    case TryWorker => if Worker in s.locks then s' == With(s, p, Finished(Raised)) else Take(s, p, Worker, Admission, s')
    case Admission =>
      if GateOpen(controls, session) then s' == Admitted(s, p, Latest(controls).value)
      else s' == With(s, p, Unwind({Worker}, Raised))
    case Startup =>
      || (GateOpen(controls, session) && s' == With(s, p, WantAppend(Status(session, ModeOf(me), Starting), RecordStart)))
      || s' == With(s, p, WantGate(AfterStartup))
    case Run =>
      || (exists e :: RunnerEvent(e, me) && s' == With(s, p, WantAppend(e, Note)))
      || s' == With(s, p, WantEntry)
      || s' == With(s, p, WantGate(AfterRun))
      || s' == With(s, p, WantGate(AfterStop))
    case WantEntry => Take(s, p, Submission, EntryCheck, s')
    case EntryCheck =>
      || (exists e, increase :: RunnerEvent(e, me) && e.Guard? && e.receipt.outcome == Attempt
            && (increase ==> GateOpen(controls, session)) && s' == With(s, p, WantAppend(e, Intend(increase))))
      || (exists e :: RunnerEvent(e, me) && e.Guard? && s' == With(s, p, WantAppend(e, RecordResult)))
      || s' == With(s, p, LeaveEntry)
    case Mutate(increase) =>
      || (exists e :: RunnerEvent(e, me) && e.Guard? && s' == Ordered(s, p, increase, WantAppend(e, RecordResult)))
      || s' == Ordered(s, p, increase, LeaveEntry)
    case LeaveEntry => Drop(s, p, Submission, Run, s')
    case _ => false
  }

  ghost predicate GateStep(s: State, p: nat, s': State)
    requires p in s.procs
  {
    var me := s.procs[p];
    var session := SessionOf(me.task);
    match me.pc
    case WantGate(why) => Take(s, p, Submission, ReadGate(why), s')
    case ReadGate(why) =>
      var controls := Controls(s.ledger);
      if GateOpen(controls, session) then
        s' == With(s, p, WantAppend(Controlled(ClosingControl(Latest(controls).value, session)), ShutGate(why)))
      else s' == With(s, p, LeaveGate(why))
    case LeaveGate(why) =>
      Drop(s, p, Submission, WantAppend(Status(session, ModeOf(me), EndState(why)), RecordEnd(why)), s')
    case _ => false
  }

  ghost predicate AppendStep(s: State, p: nat, s': State)
    requires p in s.procs
  {
    match s.procs[p].pc
    case WantAppend(e, purpose) => Take(s, p, Ledger, ReadLedger(e, purpose), s')
    case ReadLedger(e, purpose) => s' == With(s, p, Publish(e, purpose, s.ledger))
    case Publish(e, purpose, snapshot) =>
      if !ValidCandidate(e, snapshot, s.retained) then s' == With(s, p, LeaveLedger(false, purpose))
      else if |snapshot| == |s.ledger| then s' == With(s, p, LeaveLedger(true, purpose)).(ledger := s.ledger + [e])
      else  // the next file name is taken: accepted only if it already holds this very event
        s' == With(s, p, LeaveLedger(|snapshot| < |s.ledger| && s.ledger[|snapshot|] == e, purpose))
    case LeaveLedger(accepted, purpose) => Drop(s, p, Ledger, Continue(accepted, purpose), s')
    case _ => false
  }

  ghost predicate OtherStep(s: State, p: nat, s': State)
    requires p in s.procs
  {
    var me := s.procs[p];
    match me.pc
    case Requested =>
      s' == With(s, p, match me.task
                       case Enable(action, profile, _) =>
                         if action.Operator? && profile.mode == Paper then WantController else Finished(Raised)
                       case Disable(action, _) => if action.Operator? then WantController else Finished(Raised)
                       case Work(_) => TryWorker
                       case Inspect => TryInspect)
    case TryInspect => if Worker in s.locks then s' == With(s, p, Finished(Observed)) else Take(s, p, Worker, Inspecting, s')
    case Inspecting => Drop(s, p, Worker, Finished(Observed), s')
    case Unwind(held, answer) =>
      if held == {} then s' == With(s, p, Finished(answer))
      else exists l :: l in held && Drop(s, p, l, Unwind(held - {l}, answer), s')
    case _ => false
  }

  predicate Halted(pc: Pc) {
    pc.Finished? || pc.Dead?
  }

  ghost predicate ProcStep(s: State, p: nat, s': State)
    requires p in s.procs
  {
    ControllerStep(s, p, s') || WorkerStep(s, p, s') || GateStep(s, p, s') || AppendStep(s, p, s') || OtherStep(s, p, s')
  }

  /** Any operation may raise: the process leaves its `with` blocks. */
  ghost predicate Raise(s: State, p: nat, s': State)
    requires p in s.procs
  {
    !Halted(s.procs[p].pc) && s' == With(s, p, Unwind(Held(s.procs[p].pc), Raised))
  }

  /** The kernel releases every advisory lock of a killed process. */
  ghost predicate Killed(s: State, p: nat, s': State)
    requires p in s.procs
  {
    s' == With(s, p, Dead).(locks := map l | l in s.locks && s.locks[l] != p :: s.locks[l])
  }

  ghost predicate Arrives(s: State, p: nat, task: Task, s': State) {
    p !in s.procs && s' == s.(procs := s.procs[p := Proc(task, Requested, None)])
  }

  ghost predicate Next(s: State, s': State) {
    || (exists p :: p in s.procs && (ProcStep(s, p, s') || Raise(s, p, s') || Killed(s, p, s')))
    || (exists p, task :: Arrives(s, p, task, s'))
  }

  ghost predicate Init(s: State) {
    s == State([], {}, map[], map[], [])
  }

  /** Any finite run, from an empty runtime root. */
  ghost predicate IsRun(run: seq<State>) {
    && run != [] && Init(run[0])
    && forall i :: 0 <= i < |run| - 1 ==> Next(run[i], run[i + 1])
  }
}
