/** The vocabulary of the guarded trading runtime and the replay rules of its
    ledger: what an event may say, given the events before it.  A profile stands
    for its own SHA-256, a session id for the hash of its action and profile, and
    an internal action id for the hash of the session it closes, so distinct
    preimages have distinct identities by construction. */
module TradingLedger {
  import opened Options

  datatype Mode = Paper | Live

  datatype Profile = Profile(
    id: string, mode: Mode, account: string, authorization: string, symbols: set<string>, expiry: int)

  /** An operator's action id, or the reserved id under which a worker closes its own session. */
  datatype Action = Operator(name: string) | Internal(finished: Session)

  /** `Vacant` is the literal id used when a control is recorded before any session. */
  datatype Session = Vacant | Opened(action: Action, profile: Profile)

  datatype Control = Control(
    action: Action, session: Session, profile: Option<Profile>, enabled: bool, operator: string)

  datatype WorkerState = Starting | Running | Draining | Stopped | Failed | StartFailed

  datatype Outcome = Attempt | Blocked | Submitted | Ambiguous

  datatype Side = Buy | Sell | Close

  /** Decimal text; `value` is absent when the text is not a finite decimal of the accepted shape. */
  datatype Quantity = Quantity(text: string, value: Option<real>)

  datatype Receipt = Receipt(
    recordedAt: int, profileId: string, domain: string, accountMode: Mode, account: string,
    authorization: string, symbol: string, side: Side, qty: Quantity, outcome: Outcome, reason: string,
    orderId: Option<string>, clientId: Option<string>, attempt: Option<string>, priorQty: Option<Quantity>)

  datatype Event =
    | Controlled(control: Control)
    | Status(session: Session, mode: Mode, state: WorkerState)
    | Guard(session: Session, mode: Mode, receipt: Receipt)

  // ---------------------------------------------------------------- reading a ledger

  function Controls(ledger: seq<Event>): seq<Control> {
    if ledger == [] then []
    else
      var earlier := Controls(ledger[..|ledger| - 1]);
      var last := ledger[|ledger| - 1];
      if last.Controlled? then earlier + [last.control] else earlier
  }

  function Latest(controls: seq<Control>): Option<Control> {
    if controls == [] then None else Some(controls[|controls| - 1])
  }

  /** The first control that switched `session` on: the one every receipt is bound to. */
  function Binding(controls: seq<Control>, session: Session): Option<Control> {
    if controls == [] then None
    else if controls[0].enabled && controls[0].session == session then Some(controls[0])
    else Binding(controls[1..], session)
  }

  function States(ledger: seq<Event>, session: Session): seq<WorkerState> {
    if ledger == [] then []
    else
      var earlier := States(ledger[..|ledger| - 1], session);
      var last := ledger[|ledger| - 1];
      if last.Status? && last.session == session then earlier + [last.state] else earlier
  }

  /** The retained version-2 receipts of one attempt, with the session they were recorded under. */
  function Related(ledger: seq<Event>, attempt: string): (related: seq<Event>)
    ensures forall i :: 0 <= i < |related| ==> related[i].Guard? && related[i].receipt.attempt == Some(attempt)
  {
    if ledger == [] then []
    else
      var earlier := Related(ledger[..|ledger| - 1], attempt);
      var last := ledger[|ledger| - 1];
      if last.Guard? && last.receipt.attempt == Some(attempt) then earlier + [last] else earlier
  }

  predicate Used(controls: seq<Control>, action: Action) {
    exists i :: 0 <= i < |controls| && controls[i].action == action
  }

  // ---------------------------------------------------------------- replay rules

  predicate Terminal(state: WorkerState) {
    state in {Stopped, Failed, StartFailed}
  }

  predicate MayFollow(states: seq<WorkerState>, next: WorkerState) {
    if states == [] then next in {Starting, StartFailed}
    else match states[|states| - 1]
      case Starting => next in {Running, Failed}
      case Running => next in {Draining, Stopped, Failed}
      case Draining => next in {Draining, Stopped, Failed}
      case _ => false
  }

  /** Finite decimal text of magnitude at most 1e20. */
  predicate Bounded(q: Quantity) {
    q.value.Some? && -100000000000000000000.0 <= q.value.value <= 100000000000000000000.0
  }

  function Magnitude(x: real): real {
    if x < 0.0 then -x else x
  }

  /** A sell stays within a long position, a buy against a short stays within it, a close is exact. */
  predicate Reduces(side: Side, prior: real, qty: real) {
    match side
    case Sell => prior > 0.0 && qty <= prior
    case Buy => prior >= 0.0 || qty <= -prior
    case Close => prior != 0.0 && qty == Magnitude(prior)
  }

  predicate ProfileFields(r: Receipt, mode: Mode, profile: Profile) {
    && r.profileId == profile.id && r.domain == "TRADING"
    && mode == profile.mode && r.accountMode == profile.mode
    && r.account == profile.account && r.authorization == profile.authorization
    && |r.symbol| <= 64 && |r.qty.text| <= 128 && 0 < |r.reason| <= 256
  }

  predicate SameBinding(e: Event, original: Event)
    requires e.Guard? && original.Guard?
  {
    var r, o := e.receipt, original.receipt;
    && r.attempt == o.attempt && e.session == original.session && r.profileId == o.profileId
    && e.mode == original.mode && r.accountMode == o.accountMode && r.account == o.account
    && r.domain == o.domain && r.authorization == o.authorization && r.symbol == o.symbol
    && r.side == o.side && r.qty == o.qty && r.priorQty == o.priorQty
  }

  /** An identifier that is known stays known and unchanged. */
  predicate KeepsId(before: Option<string>, after: Option<string>) {
    before.Some? ==> after == before
  }

  predicate KeepsIds(before: Event, after: Event)
    requires before.Guard? && after.Guard?
  {
    && KeepsId(before.receipt.orderId, after.receipt.orderId)
    && KeepsId(before.receipt.clientId, after.receipt.clientId)
  }

  predicate ResultOf(e: Event, related: seq<Event>)
    requires e.Guard? && forall i :: 0 <= i < |related| ==> related[i].Guard?
  {
    var r := e.receipt;
    && (exists i :: 0 <= i < |related| && related[i].receipt.outcome == Attempt)
    && (forall i, j :: 0 <= i < j < |related| && related[i].receipt.outcome == Attempt ==>
          related[j].receipt.outcome != Attempt)
    && (forall i :: 0 <= i < |related| && related[i].receipt.outcome == Attempt ==>
          && SameBinding(e, related[i]) && related[i].receipt.recordedAt <= r.recordedAt)
    && (forall i :: 0 <= i < |related| ==> related[i].receipt.outcome != r.outcome)
    && (r.outcome == Submitted ==>
          r.orderId.Some? && forall i :: 0 <= i < |related| ==> related[i].receipt.outcome == Attempt)
    && (forall i :: 0 <= i < |related| ==> KeepsIds(related[i], e))
  }

  /** `validate_execution_receipt_v2`. */
  predicate ValidReceipt(e: Event, profile: Profile, prior: seq<Event>)
    requires e.Guard?
  {
    var r := e.receipt;
    && ProfileFields(r, e.mode, profile)
    && if r.attempt.None? then
         r.outcome == Blocked && r.priorQty.None? && r.orderId.None? && r.clientId.None?
       else
         && r.priorQty.Some? && Bounded(r.priorQty.value)
         && Bounded(r.qty) && r.qty.value.value > 0.0
         && Reduces(r.side, r.priorQty.value.value.value, r.qty.value.value)
         && r.symbol in profile.symbols
         && var related := Related(prior, r.attempt.value);
            if r.outcome == Attempt then related == [] && r.orderId.None?
            else ResultOf(e, related)
  }

  /** `RuntimeLedger._validate_candidate`: the rule both replay and append apply. */
  predicate ValidCandidate(e: Event, prior: seq<Event>, retained: set<Profile>) {
    match e
    case Controlled(c) =>
      && !Used(Controls(prior), c.action)
      && (c.enabled ==> c.profile.Some? && c.profile.value in retained)
    case Status(session, mode, state) =>
      var bound := Binding(Controls(prior), session);
      && bound.Some? && bound.value.profile.Some? && bound.value.profile.value in retained
      && mode == bound.value.profile.value.mode
      && MayFollow(States(prior, session), state)
    case Guard(session, mode, receipt) =>
      var bound := Binding(Controls(prior), session);
      && bound.Some? && bound.value.profile.Some? && bound.value.profile.value in retained
      && mode == bound.value.profile.value.mode
      && ValidReceipt(e, bound.value.profile.value, prior)
  }

  /** A ledger that `RuntimeLedger.events` replays without an error. */
  ghost predicate ValidLedger(ledger: seq<Event>, retained: set<Profile>) {
    forall n :: 0 <= n < |ledger| ==> ValidCandidate(ledger[n], ledger[..n], retained)
  }

  // ---------------------------------------------------------------- how the readings grow

  lemma ReadingsOfAppend(ledger: seq<Event>, e: Event)
    ensures Controls(ledger + [e]) == if e.Controlled? then Controls(ledger) + [e.control] else Controls(ledger)
    ensures forall session :: States(ledger + [e], session) ==
              if e.Status? && e.session == session then States(ledger, session) + [e.state] else States(ledger, session)
    ensures forall attempt :: Related(ledger + [e], attempt) ==
              if e.Guard? && e.receipt.attempt == Some(attempt) then Related(ledger, attempt) + [e]
              else Related(ledger, attempt)
  {
    assert (ledger + [e])[..|ledger|] == ledger;
  }

  lemma ValidPrefix(ledger: seq<Event>, retained: set<Profile>)
    requires ledger != [] && ValidLedger(ledger, retained)
    ensures ValidLedger(ledger[..|ledger| - 1], retained)
    ensures ValidCandidate(ledger[|ledger| - 1], ledger[..|ledger| - 1], retained)
  {
    var init := ledger[..|ledger| - 1];
    forall n | 0 <= n < |init|
      ensures ValidCandidate(init[n], init[..n], retained)
    {
      assert init[..n] == ledger[..n];
    }
  }

  lemma ValidAppend(ledger: seq<Event>, e: Event, retained: set<Profile>)
    requires ValidLedger(ledger, retained) && ValidCandidate(e, ledger, retained)
    ensures ValidLedger(ledger + [e], retained)
  {
    var longer := ledger + [e];
    forall n | 0 <= n < |longer|
      ensures ValidCandidate(longer[n], longer[..n], retained)
    {
      assert longer[..n] == ledger[..n];
      assert ledger[..|ledger|] == ledger;
    }
  }

  // ---------------------------------------------------------------- attempts

  /** The whole history one attempt id can have. */
  ghost predicate AttemptHistory(history: seq<Event>)
    requires forall i :: 0 <= i < |history| ==> history[i].Guard?
  {
    history != [] ==>
      && history[0].receipt.outcome == Attempt && history[0].receipt.orderId.None?
      && (forall i :: 0 < i < |history| ==>
            && history[i].receipt.outcome != Attempt
            && SameBinding(history[i], history[0])
            && history[0].receipt.recordedAt <= history[i].receipt.recordedAt
            && (history[i].receipt.outcome == Submitted ==> i == 1 && history[i].receipt.orderId.Some?))
      && (forall i, j :: 0 <= i < j < |history| ==>
            && history[i].receipt.outcome != history[j].receipt.outcome
            && KeepsIds(history[i], history[j]))
  }

  lemma AttemptStep(history: seq<Event>, e: Event)
    requires e.Guard? && forall i :: 0 <= i < |history| ==> history[i].Guard?
    requires AttemptHistory(history)
    requires if e.receipt.outcome == Attempt then history == [] && e.receipt.orderId.None? else ResultOf(e, history)
    ensures AttemptHistory(history + [e])
  {
    var longer := history + [e];
    if e.receipt.outcome != Attempt {
      assert history[0].receipt.outcome == Attempt;
      assert SameBinding(e, history[0]);
      assert e.receipt.outcome == Submitted ==> |history| == 1 by {
        if |history| > 1 { assert history[1].receipt.outcome != Attempt; }
      }
      forall i, j | 0 <= i < j < |longer|
        ensures longer[i].receipt.outcome != longer[j].receipt.outcome && KeepsIds(longer[i], longer[j])
      {
        assert longer[i] == history[i];
        if j < |history| { assert longer[j] == history[j]; }
      }
    }
  }

  /** Every attempt starts with its one ATTEMPT, then has at most one result of each
      kind under the same binding, SUBMITTED only as the first; a broker or client
      identifier once recorded is never lost or replaced by any later receipt. */
  lemma {:induction false} AttemptHistories(ledger: seq<Event>, retained: set<Profile>, attempt: string)
    requires ValidLedger(ledger, retained)
    ensures AttemptHistory(Related(ledger, attempt))
  {
    if ledger != [] {
      var init, last := ledger[..|ledger| - 1], ledger[|ledger| - 1];
      ValidPrefix(ledger, retained);
      AttemptHistories(init, retained, attempt);
      if last.Guard? && last.receipt.attempt == Some(attempt) {
        AttemptStep(Related(init, attempt), last);
      }
    }
  }

  /** The position after an order is filled in full. */
  function After(side: Side, prior: real, qty: real): real {
    match side
    case Buy => prior + qty
    case Sell => prior - qty
    case Close => if prior > 0.0 then prior - qty else prior + qty
  }

  /** What the reduction rule is for: no admitted order opens or deepens a short, takes a
      long position short or a short position long, and a close leaves nothing behind. */
  lemma NoReversal(side: Side, prior: real, qty: real)
    requires qty > 0.0
    ensures Reduces(side, prior, qty) <==>
              match side
              case Sell => 0.0 <= After(side, prior, qty) < prior
              case Buy => prior >= 0.0 || After(side, prior, qty) <= 0.0
              case Close => prior != 0.0 && After(side, prior, qty) == 0.0
  {
  }

  // ---------------------------------------------------------------- worker lifecycles

  /** A path of the lifecycle automaton. */
  ghost predicate Lifecycle(states: seq<WorkerState>) {
    forall i :: 0 <= i < |states| ==> MayFollow(states[..i], states[i])
  }

  ghost predicate OpensOnce(states: seq<WorkerState>) {
    forall i :: 0 <= i < |states| ==> (i == 0 <==> states[i] in {Starting, StartFailed})
  }

  ghost predicate EndsOnce(states: seq<WorkerState>) {
    forall i :: 0 <= i < |states| && Terminal(states[i]) ==> i == |states| - 1
  }

  lemma LifecycleStep(states: seq<WorkerState>, next: WorkerState)
    requires Lifecycle(states) && OpensOnce(states) && EndsOnce(states) && MayFollow(states, next)
    ensures Lifecycle(states + [next]) && OpensOnce(states + [next]) && EndsOnce(states + [next])
  {
    var longer := states + [next];
    forall i | 0 <= i < |longer|
      ensures MayFollow(longer[..i], longer[i])
    {
      assert longer[..i] == states[..i];
      assert states[..|states|] == states;
    }
  }

  /** In a valid ledger each session's states are such a path: it is opened by a single
      STARTING or START_FAILED, and nothing follows a terminal state. */
  lemma {:induction false} Lifecycles(ledger: seq<Event>, retained: set<Profile>, session: Session)
    requires ValidLedger(ledger, retained)
    ensures Lifecycle(States(ledger, session))
    ensures OpensOnce(States(ledger, session)) && EndsOnce(States(ledger, session))
  {
    if ledger != [] {
      var init, last := ledger[..|ledger| - 1], ledger[|ledger| - 1];
      ValidPrefix(ledger, retained);
      Lifecycles(init, retained, session);
      if last.Status? && last.session == session {
        LifecycleStep(States(init, session), last.state);
      }
    }
  }

  // ---------------------------------------------------------------- unique identities

  /** No two controls of a valid ledger share an action id, and an enabling control names a retained profile. */
  lemma {:induction false} DistinctActions(ledger: seq<Event>, retained: set<Profile>)
    requires ValidLedger(ledger, retained)
    ensures forall i, j :: 0 <= i < j < |Controls(ledger)| ==>
              Controls(ledger)[i].action != Controls(ledger)[j].action
    ensures forall i :: 0 <= i < |Controls(ledger)| && Controls(ledger)[i].enabled ==>
              Controls(ledger)[i].profile.Some? && Controls(ledger)[i].profile.value in retained
  {
    if ledger != [] {
      ValidPrefix(ledger, retained);
      var init, last := ledger[..|ledger| - 1], ledger[|ledger| - 1];
      DistinctActions(init, retained);
      if last.Controlled? {
        assert Controls(ledger) == Controls(init) + [last.control];
        assert !Used(Controls(init), last.control.action);
      }
    }
  }

  /** A session is bound exactly when a control switched it on, and then to the first that did. */
  lemma {:induction false} BindingIsFirst(controls: seq<Control>, session: Session)
    ensures Binding(controls, session).Some? <==>
              exists i :: 0 <= i < |controls| && controls[i].enabled && controls[i].session == session
    ensures Binding(controls, session).Some? ==>
              exists i :: 0 <= i < |controls| && Binding(controls, session) == Some(controls[i])
                && controls[i].enabled && controls[i].session == session
                && forall j :: 0 <= j < i ==> !(controls[j].enabled && controls[j].session == session)
  {
    if controls != [] {
      BindingIsFirst(controls[1..], session);
      if !(controls[0].enabled && controls[0].session == session) {
        assert forall i :: 0 < i < |controls| ==> controls[i] == controls[1..][i - 1];
      }
    }
  }

  // ---------------------------------------------------------------- what a ledger accepts, exactly

  /** Control m is the first that switched the session on. */
  predicate FirstOpening(controls: seq<Control>, session: Session, m: nat) {
    && m < |controls| && controls[m].enabled && controls[m].session == session
    && forall j :: 0 <= j < m ==> !(controls[j].enabled && controls[j].session == session)
  }

  lemma {:induction false} BindingIs(controls: seq<Control>, session: Session, m: nat)
    requires FirstOpening(controls, session, m)
    ensures Binding(controls, session) == Some(controls[m])
  {
    if m > 0 {
      assert !(controls[0].enabled && controls[0].session == session);
      assert controls[1..][m - 1] == controls[m];
      forall j | 0 <= j < m - 1
        ensures !(controls[1..][j].enabled && controls[1..][j].session == session)
      {
        assert controls[1..][j] == controls[j + 1];
      }
      BindingIs(controls[1..], session, m - 1);
    }
  }

  /** The session was opened for a retained profile of this mode. */
  ghost predicate BoundTo(controls: seq<Control>, session: Session, mode: Mode, profile: Profile, retained: set<Profile>) {
    && profile in retained && mode == profile.mode
    && exists m: nat :: FirstOpening(controls, session, m) && controls[m].profile == Some(profile)
  }

  /** Once filled, the order has not opened or deepened a short, nor turned a position round. */
  predicate KeepsPosition(side: Side, prior: real, qty: real) {
    match side
    case Sell => 0.0 <= After(side, prior, qty) < prior
    case Buy => prior >= 0.0 || After(side, prior, qty) <= 0.0
    case Close => prior != 0.0 && After(side, prior, qty) == 0.0
  }

  /** What a receipt says of the profile it was recorded under. */
  predicate Describes(r: Receipt, profile: Profile) {
    && r.profileId == profile.id && r.account == profile.account && r.authorization == profile.authorization
    && r.accountMode == profile.mode && r.domain == "TRADING"
    && |r.symbol| <= 64 && |r.qty.text| <= 128 && 1 <= |r.reason| <= 256
  }

  /** An admitted attempt: an owned symbol, decimal quantities of at most 1e20, and a position it keeps. */
  predicate Admissible(r: Receipt, profile: Profile) {
    && r.symbol in profile.symbols
    && r.qty.value.Some? && 0.0 < r.qty.value.value <= 100000000000000000000.0
    && r.priorQty.Some? && r.priorQty.value.value.Some?
    && Magnitude(r.priorQty.value.value.value) <= 100000000000000000000.0
    && KeepsPosition(r.side, r.priorQty.value.value.value, r.qty.value.value)
  }

  /** A result fits what is retained of its attempt exactly when the longer history is still one. */
  lemma ResultFits(history: seq<Event>, e: Event)
    requires e.Guard? && forall i :: 0 <= i < |history| ==> history[i].Guard?
    requires AttemptHistory(history)
    ensures AttemptHistory(history + [e]) <==>
              if e.receipt.outcome == Attempt then history == [] && e.receipt.orderId.None? else ResultOf(e, history)
  {
    var longer := history + [e];
    if AttemptHistory(longer) {
      assert longer[|history|] == e;
      if history != [] && e.receipt.outcome != Attempt {
        assert longer[0] == history[0];
        forall i | 0 <= i < |history|
          ensures history[i].receipt.outcome != e.receipt.outcome && KeepsIds(history[i], e)
        {
          assert longer[i] == history[i];
        }
      }
    } else if if e.receipt.outcome == Attempt then history == [] && e.receipt.orderId.None? else ResultOf(e, history) {
      AttemptStep(history, e);
    }
  }

  /** A receipt is accepted exactly when its session was opened for a profile it describes, and it is
      either a refusal before admission, which names no order, or an admissible part of an attempt
      whose history it continues. */
  lemma ReceiptAccepted(ledger: seq<Event>, e: Event, retained: set<Profile>)
    requires ValidLedger(ledger, retained) && e.Guard?
    ensures ValidCandidate(e, ledger, retained) <==>
              exists profile :: BoundTo(Controls(ledger), e.session, e.mode, profile, retained)
                && Describes(e.receipt, profile)
                && if e.receipt.attempt.None? then
                     e.receipt.outcome == Blocked && e.receipt.priorQty.None? && e.receipt.orderId.None? && e.receipt.clientId.None?
                   else
                     && Admissible(e.receipt, profile)
                     && AttemptHistory(Related(ledger, e.receipt.attempt.value) + [e])
  {
    var controls, r := Controls(ledger), e.receipt;
    hide ValidLedger, AttemptHistory, ResultOf, Controls, Related;
    if r.attempt.Some? {
      AttemptHistories(ledger, retained, r.attempt.value);
      ResultFits(Related(ledger, r.attempt.value), e);
    }
    Bound(controls, e.session, e.mode, retained);
  }

  lemma Bound(controls: seq<Control>, session: Session, mode: Mode, retained: set<Profile>)
    ensures var bound := Binding(controls, session);
      forall profile :: BoundTo(controls, session, mode, profile, retained) <==>
        bound.Some? && bound.value.profile == Some(profile) && profile in retained && mode == profile.mode
  {
    BindingIsFirst(controls, session);
    hide Binding;
    forall m: nat | FirstOpening(controls, session, m)
      ensures Binding(controls, session) == Some(controls[m])
    {
      BindingIs(controls, session, m);
    }
    if Binding(controls, session).Some? {
      var m :| 0 <= m < |controls| && Binding(controls, session) == Some(controls[m])
        && controls[m].enabled && controls[m].session == session
        && forall j :: 0 <= j < m ==> !(controls[j].enabled && controls[j].session == session);
      assert FirstOpening(controls, session, m);
    }
  }

  /** Every receipt of a valid ledger describes the profile its session was opened for, and every one
      with an attempt keeps the position it was admitted for, in a symbol that profile owns. */
  lemma ReceiptsKeepPositions(ledger: seq<Event>, retained: set<Profile>, n: nat)
    requires ValidLedger(ledger, retained) && n < |ledger| && ledger[n].Guard?
    ensures exists profile :: BoundTo(Controls(ledger[..n]), ledger[n].session, ledger[n].mode, profile, retained)
              && Describes(ledger[n].receipt, profile)
              && (ledger[n].receipt.attempt.Some? ==> Admissible(ledger[n].receipt, profile))
  {
    PrefixIsValid(ledger, retained, n);
    ReceiptAccepted(ledger[..n], ledger[n], retained);
  }

  lemma PrefixIsValid(ledger: seq<Event>, retained: set<Profile>, n: nat)
    requires ValidLedger(ledger, retained) && n <= |ledger|
    ensures ValidLedger(ledger[..n], retained)
  {
    hide ValidCandidate;
    forall k | 0 <= k < n
      ensures ValidCandidate(ledger[..n][k], ledger[..n][..k], retained)
    {
      assert ledger[..n][..k] == ledger[..k];
    }
  }

  /** The lifecycles of a worker, spelled out: a failed start, or a start, then possibly a run, any
      number of drains of it, and possibly an end. */
  predicate Path(states: seq<WorkerState>) {
    forall i: nat :: i < |states| ==> PathAt(states, i)
  }

  predicate PathAt(states: seq<WorkerState>, i: nat)
    requires i < |states|
  {
    match states[i]
    case Starting => i == 0
    case StartFailed => i == 0 && |states| == 1
    case Running => i == 1 && states[0] == Starting
    case Draining => i >= 2 && states[i - 1] in {Running, Draining}
    case Stopped => i >= 2 && states[i - 1] in {Running, Draining} && i == |states| - 1
    case Failed => i >= 1 && states[i - 1] in {Starting, Running, Draining} && i == |states| - 1
  }

  lemma PathStep(states: seq<WorkerState>, next: WorkerState)
    requires Path(states)
    ensures Path(states + [next]) <==> MayFollow(states, next)
  {
    var longer := states + [next];
    var n := |states|;
    assert longer[n] == next;
    if n > 0 { assert longer[n - 1] == states[n - 1] && PathAt(states, n - 1); }
    assert PathAt(longer, n) && (n > 0 ==> PathAt(longer, n - 1)) <==> MayFollow(states, next);
    forall k: nat | k + 1 < n
      ensures PathAt(longer, k)
    {
      assert PathAt(states, k) && longer[k] == states[k];
    }
  }

  lemma {:induction false} StatesArePath(ledger: seq<Event>, retained: set<Profile>, session: Session)
    requires ValidLedger(ledger, retained)
    ensures Path(States(ledger, session))
  {
    if ledger != [] {
      var init, last := ledger[..|ledger| - 1], ledger[|ledger| - 1];
      ValidPrefix(ledger, retained);
      StatesArePath(init, retained, session);
      if last.Status? && last.session == session { PathStep(States(init, session), last.state); }
    }
  }

  /** A status is accepted exactly when its session was opened for a profile of its mode and the
      session's states, continued by it, are still a lifecycle. */
  lemma StatusAccepted(ledger: seq<Event>, e: Event, retained: set<Profile>)
    requires ValidLedger(ledger, retained) && e.Status?
    ensures ValidCandidate(e, ledger, retained) <==>
              && (exists profile :: BoundTo(Controls(ledger), e.session, e.mode, profile, retained))
              && Path(States(ledger, e.session) + [e.state])
  {
    StatesArePath(ledger, retained, e.session);
    PathStep(States(ledger, e.session), e.state);
    Bound(Controls(ledger), e.session, e.mode, retained);
    hide ValidLedger, Controls, States, BoundTo, Path, MayFollow, Binding;
  }

  /** A control is accepted exactly when its action is new and, if it switches on, its profile is retained. */
  lemma ControlAccepted(ledger: seq<Event>, c: Control, retained: set<Profile>)
    ensures ValidCandidate(Controlled(c), ledger, retained) <==>
              && (forall earlier :: earlier in Controls(ledger) ==> earlier.action != c.action)
              && (c.enabled ==> exists profile :: profile in retained && c.profile == Some(profile))
  {
    hide Controls;
  }
}
