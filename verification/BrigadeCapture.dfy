/** One-shot inference capture: a durable reservation, an intent before every call and a receipt
    after it, and a provider-free recovery.  Every durable write is one atomic step, after any
    of which the process may be killed. */
module BrigadeCapture {
  import opened Options

  const MAX_ATTEMPT_CALLS := 40
  const MAX_ATTEMPT_SECONDS := 300

  datatype Native = Native(symbol: string, member: string)

  datatype Request = Request(analysis: string, generatedAt: int)

  /** `timeout` is the per-call delivery budget. */
  datatype Config = Config(endpoint: string, timeout: int)

  datatype Wire = Wire(native: Native, config: Config, analysis: string)

  datatype Status = Validated | ValidatedExpired | ValidatedRejected | Failed

  /** A transcript with its transport record. */
  datatype Receipt = Receipt(native: Native, wire: Wire, config: Config, status: Status, text: Option<string>,
                             startedAt: int, observedAt: int)

  datatype Sealed = Sealed(request: Request, recordedAt: int, receipts: seq<Receipt>)

  datatype Content =
    | IntentDoc(request: Request, planned: seq<Native>, config: Config)
    | CallDoc(native: Native, wire: Wire)
    | ReceiptDoc(receipt: Receipt)
    | ClockDoc(owner: Request, completedAt: int)
    | BundleDoc(bundle: Sealed)
    | SealedDoc(sealed: Sealed)
    | AnalysisDoc(analysis: nat)
    | DeferredDoc(deferred: Request)

  datatype Name =
    | IntentFile | CallFile(index: nat) | ReceiptFile(index: nat) | StrayCallFile(text: string)
    | ClockFile | BundleFile | SealedFile | AnalysisFile | DeferredFile

  type Files = map<Name, Content>

  /** Code outside this protocol: whether a member's forecasts have expired at a time, whether a
      text is over the retained size, and the replayed analysis of a sealed request. */
  datatype Rules = Rules(expired: (Native, int) -> bool, oversized: string -> bool, analysis: Sealed -> nat)

  datatype Reply =
    | Answer(text: string, startedAt: int, observedAt: int)
    | Failure(failedAt: int)

  /** The readings one run takes: wall clock, monotonic clock and provider answers, by call; `end`
      is the monotonic clock when a call has been answered. */
  datatype World = World(start: int, started: int, check: nat -> int, current: nat -> int, before: nat -> int,
                         reply: nat -> Reply, end: nat -> int, closing: int, final: int)

  /** The n-th call of an attempt met its delivery budget, measured from the check that admitted it. */
  predicate MetBudget(world: World, config: Config, n: nat) {
    world.end(n) - world.check(n) <= config.timeout
  }

  /** The monotonic clock when an attempt has heard its last answer, of n. */
  function LastAnswer(world: World, n: nat): int {
    if n == 0 then world.started else world.end(n - 1)
  }

  function WireOf(intent: Content, i: nat): Wire
    requires intent.IntentDoc? && 1 <= i <= |intent.planned|
  {
    Wire(intent.planned[i - 1], intent.config, intent.request.analysis)
  }

  /** The wires of the whole plan, in order. */
  function Plan(intent: Content): seq<Wire>
    requires intent.IntentDoc?
  {
    seq(|intent.planned|, k requires 0 <= k < |intent.planned| => WireOf(intent, k + 1))
  }

  function ReceiptOf(rules: Rules, intent: Content, i: nat, before: int, reply: Reply): Receipt
    requires intent.IntentDoc? && 1 <= i <= |intent.planned|
  {
    var native, wire := intent.planned[i - 1], WireOf(intent, i);
    match reply
    case Failure(at) => Receipt(native, wire, intent.config, Failed, None, before, at)
    case Answer(text, started, observed) =>
      if rules.expired(native, observed) then Receipt(native, wire, intent.config, ValidatedExpired, None, started, observed)
      else if rules.oversized(text) then Receipt(native, wire, intent.config, ValidatedRejected, None, started, observed)
      else Receipt(native, wire, intent.config, Validated, Some(text), started, observed)
  }

  // ---------------------------------------------------------------- what an attempt owes to its replies

  /** The provider answered, the member's forecasts had not expired by then, and the text is retained whole. */
  predicate GoodReply(rules: Rules, native: Native, reply: Reply) {
    reply.Answer? && !rules.expired(native, reply.observedAt) && !rules.oversized(reply.text)
  }

  /** A receipt says what happened to its request: the text of a good answer and nothing of any other;
      a failure, an expired and an oversized answer each under its own status; the reply's own clocks. */
  predicate Says(rules: Rules, r: Receipt, native: Native, before: int, reply: Reply) {
    && (r.status == Validated <==> GoodReply(rules, native, reply))
    && (r.text.Some? <==> GoodReply(rules, native, reply)) && (r.text.Some? ==> r.text.value == reply.text)
    && (r.status == Failed <==> reply.Failure?)
    && (r.status == ValidatedExpired <==> reply.Answer? && rules.expired(native, reply.observedAt))
    && (reply.Answer? ==> r.startedAt == reply.startedAt && r.observedAt == reply.observedAt)
    && (reply.Failure? ==> r.startedAt == before && r.observedAt == reply.failedAt)
  }

  /** What was sent: the planned requests in order, each within the attempt's time and with forecasts
      still current, and each but the first only after a good reply to the one before. */
  ghost predicate SentWell(rules: Rules, request: Request, planned: seq<Native>, config: Config, world: World, served: seq<Wire>) {
    && |served| <= |planned|
    && (forall i :: 0 <= i < |served| ==> served[i] == Wire(planned[i], config, request.analysis))
    && (forall i: nat :: i < |served| ==> Affordable(rules, planned[i], config, world, i))
    && (forall i: nat :: i + 1 < |served| ==> GoodReply(rules, planned[i], world.reply(i)))
  }

  /** The n-th call cannot outlast the attempt, and its member's forecasts have not expired yet. */
  predicate Affordable(rules: Rules, native: Native, config: Config, world: World, n: nat) {
    && world.check(n) - world.started + config.timeout <= MAX_ATTEMPT_SECONDS
    && !rules.expired(native, world.current(n))
  }

  /** Every receipt in the directory is of a request that was sent, and says what came back. */
  ghost predicate ReceiptsSay(rules: Rules, request: Request, planned: seq<Native>, config: Config, world: World, files: Files,
                              served: seq<Wire>)
    requires |served| <= |planned|
  {
    forall i: nat :: ReceiptFile(i) in files ==>
      && 1 <= i <= |served| && files[ReceiptFile(i)].ReceiptDoc?
      && files[ReceiptFile(i)].receipt.native == planned[i - 1] && files[ReceiptFile(i)].receipt.config == config
      && files[ReceiptFile(i)].receipt.wire == Wire(planned[i - 1], config, request.analysis)
      && Says(rules, files[ReceiptFile(i)].receipt, planned[i - 1], world.before(i - 1), world.reply(i - 1))
  }

  /** Why an attempt made no further call: none was left, the last reply was not good, or the next call
      could not be afforded. */
  ghost predicate StoppedFor(rules: Rules, planned: seq<Native>, config: Config, world: World, n: nat) {
    && n <= |planned|
    && (|| n == |planned|
        || (n > 0 && !GoodReply(rules, planned[n - 1], world.reply(n - 1)))
        || !Affordable(rules, planned[n], config, world, n))
  }

  lemma ReceiptSays(rules: Rules, intent: Content, i: nat, before: int, reply: Reply)
    requires intent.IntentDoc? && 1 <= i <= |intent.planned|
    ensures var r := ReceiptOf(rules, intent, i, before, reply);
      && Says(rules, r, intent.planned[i - 1], before, reply)
      && r.native == intent.planned[i - 1] && r.config == intent.config
      && r.wire == Wire(intent.planned[i - 1], intent.config, intent.request.analysis)
  {
  }

  /** The receipts of the first n calls of an attempt. */
  function Answers(rules: Rules, intent: Content, world: World, n: nat): seq<Receipt>
    requires intent.IntentDoc? && n <= |intent.planned|
  {
    seq(n, k requires 0 <= k < n => ReceiptOf(rules, intent, k + 1, world.before(k), world.reply(k)))
  }

  /** How many calls an attempt makes that has made k and may go on: it stops before a call that
      may exceed the budget or whose forecasts have expired, and after one that was not validated. */
  function Reach(rules: Rules, intent: Content, world: World, k: nat): (n: nat)
    requires intent.IntentDoc? && k <= |intent.planned|
    ensures k <= n <= |intent.planned|
    decreases |intent.planned| - k
  {
    if k == |intent.planned| then k
    else if world.check(k) - world.started + intent.config.timeout > MAX_ATTEMPT_SECONDS then k
    else if rules.expired(intent.planned[k], world.current(k)) then k
    else if ReceiptOf(rules, intent, k + 1, world.before(k), world.reply(k)).status != Validated then k + 1
    else Reach(rules, intent, world, k + 1)
  }

  lemma NoAnswers(rules: Rules, intent: Content, world: World)
    requires intent.IntentDoc?
    ensures Answers(rules, intent, world, 0) == []
  {
  }

  lemma AnswersNext(rules: Rules, intent: Content, world: World, n: nat)
    requires intent.IntentDoc? && n < |intent.planned|
    ensures Answers(rules, intent, world, n + 1)
              == Answers(rules, intent, world, n) + [ReceiptOf(rules, intent, n + 1, world.before(n), world.reply(n))]
  {
  }

  // ---------------------------------------------------------------- what a directory can hold

  ghost predicate Reserved(files: Files) {
    IntentFile in files && files[IntentFile].IntentDoc? && |files[IntentFile].planned| <= MAX_ATTEMPT_CALLS
  }

  /** n call intents, m receipts; `served` are the requests that ever reached the provider. */
  ghost predicate Calling(files: Files, served: seq<Wire>, n: nat, m: nat) {
    && Reserved(files)
    && var intent := files[IntentFile];
    && m <= |served| <= n <= |intent.planned| && n <= m + 1
    && served == Plan(intent)[..|served|]
    && (forall i: nat :: CallFile(i) in files <==> 1 <= i <= n)
    && (forall i :: 1 <= i <= n ==> files[CallFile(i)] == CallDoc(intent.planned[i - 1], WireOf(intent, i)))
    && (forall i: nat :: ReceiptFile(i) in files <==> 1 <= i <= m)
    && (forall i :: 1 <= i <= m ==> GoodReceipt(intent, i, files[ReceiptFile(i)]))
    && (forall i :: 1 <= i <= m && i < n ==> files[ReceiptFile(i)].receipt.status == Validated)
    && (forall text :: StrayCallFile(text) !in files)
  }

  predicate GoodReceipt(intent: Content, i: nat, doc: Content)
    requires intent.IntentDoc? && 1 <= i <= |intent.planned|
  {
    && doc.ReceiptDoc? && doc.receipt.native == intent.planned[i - 1]
    && doc.receipt.wire == WireOf(intent, i) && doc.receipt.config == intent.config
  }

  ghost predicate Receipts(files: Files, receipts: seq<Receipt>) {
    && (forall i: nat :: ReceiptFile(i) in files <==> 1 <= i <= |receipts|)
    && (forall i :: 1 <= i <= |receipts| ==> files[ReceiptFile(i)] == ReceiptDoc(receipts[i - 1]))
  }

  /** The window in which `_finish_capture` and the bundle validator accept a completion clock. */
  predicate InWindow(request: Request, receipts: seq<Receipt>, closing: int) {
    && request.generatedAt <= closing
    && forall r :: r in receipts ==> request.generatedAt <= r.startedAt <= r.observedAt <= closing
  }

  /** The closing documents, each present only after the one before it, and fixed by the clock. */
  ghost predicate Closing(rules: Rules, files: Files, receipts: seq<Receipt>) {
    && (ClockFile in files ==>
          Reserved(files) && files[ClockFile].ClockDoc? && files[ClockFile].owner == files[IntentFile].request)
    && (BundleFile in files ==>
          && ClockFile in files
          && var request, at := files[IntentFile].request, files[ClockFile].completedAt;
             InWindow(request, receipts, at) && files[BundleFile] == BundleDoc(Sealed(request, at, receipts)))
    && (SealedFile in files ==> BundleFile in files && files[SealedFile] == SealedDoc(files[BundleFile].bundle))
    && (AnalysisFile in files ==>
          SealedFile in files && files[AnalysisFile] == AnalysisDoc(rules.analysis(files[SealedFile].sealed)))
  }

  /** Every state a directory can be in, between any two steps of any runs. */
  ghost predicate Consistent(rules: Rules, files: Files, served: seq<Wire>) {
    if IntentFile !in files then
      served == [] && forall n :: n in files ==> n.DeferredFile?
    else
      && (exists n: nat, m: nat :: Calling(files, served, n, m))
      && (exists receipts :: Receipts(files, receipts) && Closing(rules, files, receipts))
  }

  lemma SameReceipts(files: Files, a: seq<Receipt>, b: seq<Receipt>)
    requires Receipts(files, a) && Receipts(files, b)
    ensures a == b
  {
    assert |a| == |b| by {
      assert |a| > 0 ==> ReceiptFile(|a|) in files;
      assert |b| > 0 ==> ReceiptFile(|b|) in files;
    }
    forall i | 0 <= i < |a|
      ensures a[i] == b[i]
    {
      assert files[ReceiptFile(i + 1)] == ReceiptDoc(a[i]);
      assert files[ReceiptFile(i + 1)] == ReceiptDoc(b[i]);
    }
  }

  // ---------------------------------------------------------------- `_saved_receipts`

  /** Whether `_saved_receipts` accepts the directory. */
  ghost predicate Accepted(files: Files, planned: seq<Native>, config: Config, receipts: seq<Receipt>) {
    && Receipts(files, receipts)
    && (forall text :: StrayCallFile(text) !in files)
    && exists n: nat :: CallsSaved(files, planned, config, receipts, n)
  }

  ghost predicate CallsSaved(files: Files, planned: seq<Native>, config: Config, receipts: seq<Receipt>, n: nat) {
    && |receipts| <= n <= |receipts| + 1 && n <= |planned|
    && (forall i: nat :: CallFile(i) in files <==> 1 <= i <= n)
    && (forall i: nat :: 1 <= i <= n ==> CallGood(files, planned, i))
    && (forall i: nat :: 1 <= i <= |receipts| ==> ReceiptGood(files, planned, config, receipts, i))
  }

  predicate CallGood(files: Files, planned: seq<Native>, i: nat) {
    1 <= i <= |planned| && CallFile(i) in files && files[CallFile(i)].CallDoc? && files[CallFile(i)].native == planned[i - 1]
  }

  predicate ReceiptGood(files: Files, planned: seq<Native>, config: Config, receipts: seq<Receipt>, i: nat) {
    && 1 <= i <= |receipts| && CallGood(files, planned, i)
    && receipts[i - 1].native == planned[i - 1] && receipts[i - 1].wire == files[CallFile(i)].wire
    && receipts[i - 1].config == config
  }

  /** `_saved_receipts` accepts every state a kill can leave. */
  lemma CrashStatesAreAccepted(rules: Rules, files: Files, served: seq<Wire>)
    requires Consistent(rules, files, served) && IntentFile in files
    ensures Reserved(files)
    ensures exists receipts :: Accepted(files, files[IntentFile].planned, files[IntentFile].config, receipts)
                && Closing(rules, files, receipts)
  {
    var n: nat, m: nat :| Calling(files, served, n, m);
    var receipts :| Receipts(files, receipts) && Closing(rules, files, receipts);
    ReceiptCount(files, receipts, m);
    forall i: nat | 1 <= i <= n
      ensures CallGood(files, files[IntentFile].planned, i)
    {
      assert CallFile(i) in files;
    }
    forall i: nat | 1 <= i <= |receipts|
      ensures ReceiptGood(files, files[IntentFile].planned, files[IntentFile].config, receipts, i)
    {
      assert CallFile(i) in files && ReceiptFile(i) in files;
      assert GoodReceipt(files[IntentFile], i, files[ReceiptFile(i)]);
    }
    assert CallsSaved(files, files[IntentFile].planned, files[IntentFile].config, receipts, n);
  }

  lemma ReceiptCount(files: Files, receipts: seq<Receipt>, m: nat)
    requires Receipts(files, receipts) && forall i: nat :: ReceiptFile(i) in files <==> 1 <= i <= m
    ensures |receipts| == m
  {
    if |receipts| > 0 { assert ReceiptFile(|receipts|) in files; }
    if m > 0 { assert ReceiptFile(m) in files; }
  }

  /** What may still be written once a reservation exists. */
  predicate IsClosing(n: Name) {
    n.ClockFile? || n.BundleFile? || n.SealedFile? || n.AnalysisFile? || n.DeferredFile?
  }

  /** Nothing is changed or lost, and only closing documents are new. */
  ghost predicate OnlyClosed(before: Files, after: Files) {
    && (forall n :: n in before ==> n in after && after[n] == before[n])
    && (forall n :: n in after && n !in before ==> IsClosing(n) && !n.DeferredFile?)
  }

  // ---------------------------------------------------------------- histories of runs

  /** What one run, of any kind and killed anywhere, can do to a directory: nothing written ever
      changes, and the provider is only reached by the run that made the reservation. */
  ghost predicate Ran(rules: Rules, files: Files, served: seq<Wire>, files': Files, served': seq<Wire>) {
    && Consistent(rules, files', served')
    && (forall n :: n in files ==> n in files' && files'[n] == files[n])
    && (IntentFile in files ==>
          served' == served && forall n :: n in files' && n !in files ==> IsClosing(n))
  }

  datatype Directory = Directory(files: Files, served: seq<Wire>)

  ghost predicate History(rules: Rules, h: seq<Directory>) {
    && h != [] && h[0] == Directory(map[], [])
    && forall i :: 0 < i < |h| ==> Ran(rules, h[i - 1].files, h[i - 1].served, h[i].files, h[i].served)
  }

  lemma {:induction false} AlwaysConsistent(rules: Rules, h: seq<Directory>, i: nat)
    requires History(rules, h) && i < |h|
    ensures Consistent(rules, h[i].files, h[i].served)
  {
    if i > 0 { assert Ran(rules, h[i - 1].files, h[i - 1].served, h[i].files, h[i].served); }
  }

  /** Over any sequence of captures, kills, reruns and recoveries: each planned request is sent
      at most once, the requests sent are a prefix of the plan, receipts are a prefix of intents
      with at most one call unconfirmed, and nothing follows a call that was not validated. */
  lemma SentAtMostOnce(rules: Rules, h: seq<Directory>, i: nat)
    requires History(rules, h) && i < |h|
    ensures Consistent(rules, h[i].files, h[i].served)
    ensures IntentFile !in h[i].files ==> h[i].served == []
    ensures IntentFile in h[i].files ==>
              exists n: nat, m: nat ::
                && Calling(h[i].files, h[i].served, n, m)
                && m <= n <= m + 1 && m <= |h[i].served| <= n
                && (forall k :: 0 <= k < |h[i].served| ==>
                      var intent := h[i].files[IntentFile];
                      h[i].served[k] == Wire(intent.planned[k], intent.config, intent.request.analysis))
                && (forall k :: 1 <= k <= m && k < |h[i].served| ==> h[i].files[ReceiptFile(k)].receipt.status == Validated)
    ensures IntentFile in h[i].files ==>
              var planned := h[i].files[IntentFile].planned;
              (forall a, b :: 0 <= a < b < |planned| ==> planned[a] != planned[b]) ==>
                forall a, b :: 0 <= a < b < |h[i].served| ==> h[i].served[a] != h[i].served[b]
  {
    AlwaysConsistent(rules, h, i);
    hide History;
    if IntentFile in h[i].files {
      var n: nat, m: nat :| Calling(h[i].files, h[i].served, n, m);
    }
  }

  lemma {:induction false} FilesAreFinal(rules: Rules, h: seq<Directory>, i: nat, j: nat)
    requires History(rules, h) && i <= j < |h|
    ensures forall n :: n in h[i].files ==> n in h[j].files && h[j].files[n] == h[i].files[n]
    ensures IntentFile in h[i].files ==>
              && h[j].served == h[i].served
              && forall n :: n in h[j].files && n !in h[i].files ==> IsClosing(n)
    decreases j
  {
    hide Consistent;
    if i < j {
      FilesAreFinal(rules, h, i, j - 1);
      assert Ran(rules, h[j - 1].files, h[j - 1].served, h[j].files, h[j].served);
    }
  }

  /** The first durable completion clock fixes everything: whatever bundle, sealed request and
      analysis any later state holds is computed from the reservation, the receipts and that
      clock; and if the clock is outside the window of the receipts, no later state holds any. */
  lemma ClockFixesOutcome(rules: Rules, h: seq<Directory>, i: nat, j: nat, receipts: seq<Receipt>)
    requires History(rules, h) && i <= j < |h| && ClockFile in h[i].files && Receipts(h[i].files, receipts)
    ensures h[i].files[ClockFile].ClockDoc? && Reserved(h[i].files)
    ensures var request, at := h[i].files[IntentFile].request, h[i].files[ClockFile].completedAt;
      var sealed := Sealed(request, at, receipts);
      && (BundleFile in h[j].files ==> h[j].files[BundleFile] == BundleDoc(sealed))
      && (SealedFile in h[j].files ==> h[j].files[SealedFile] == SealedDoc(sealed))
      && (AnalysisFile in h[j].files ==> h[j].files[AnalysisFile] == AnalysisDoc(rules.analysis(sealed)))
      && (BundleFile in h[j].files || SealedFile in h[j].files || AnalysisFile in h[j].files ==>
            && request.generatedAt <= at
            && forall r :: r in receipts ==> request.generatedAt <= r.startedAt <= r.observedAt <= at)
  {
    AlwaysConsistent(rules, h, i);
    AlwaysConsistent(rules, h, j);
    hide Consistent, History, Calling;
    ConsistentClosing(rules, h[i].files, h[i].served);
    FilesAreFinal(rules, h, i, j);
    ConsistentClosing(rules, h[j].files, h[j].served);
    var later :| Receipts(h[j].files, later) && Closing(rules, h[j].files, later);
    assert Receipts(h[j].files, receipts);
    SameReceipts(h[j].files, later, receipts);
  }

  lemma ConsistentClosing(rules: Rules, files: Files, served: seq<Wire>)
    requires Consistent(rules, files, served) && ClockFile in files
    ensures IntentFile in files && exists receipts :: Receipts(files, receipts) && Closing(rules, files, receipts)
  {
  }

  /** A set of n numbers that contains 1 to n contains nothing else, and conversely. */
  lemma {:induction false} OnlyNumbers(keys: set<nat>, n: nat)
    requires |keys| == n && forall i: nat :: 1 <= i <= n ==> i in keys
    ensures forall i: nat :: i in keys ==> 1 <= i <= n
  {
    if n > 0 {
      OnlyNumbers(keys - {n}, n - 1);
      assert forall i: nat :: i in keys ==> i == n || i in keys - {n};
    } else {
      assert keys == {};
    }
  }

  lemma {:induction false} CountNumbers(keys: set<nat>, n: nat)
    requires forall i: nat :: i in keys <==> 1 <= i <= n
    ensures |keys| == n
  {
    if n > 0 {
      CountNumbers(keys - {n}, n - 1);
    } else {
      assert keys == {};
    }
  }

  // ---------------------------------------------------------------- single steps

  /** An attempt between two calls: every call so far was answered, recorded and validated. */
  ghost predicate Live(files: Files, served: seq<Wire>, receipts: seq<Receipt>) {
    && Calling(files, served, |receipts|, |receipts|) && |served| == |receipts| && Receipts(files, receipts)
    && (forall r :: r in receipts ==> r.status == Validated)
    && forall n :: n in files && IsClosing(n) ==> n.DeferredFile?
  }

  lemma LiveIsConsistent(rules: Rules, files: Files, served: seq<Wire>, receipts: seq<Receipt>)
    requires Live(files, served, receipts)
    ensures Consistent(rules, files, served)
  {
    assert Closing(rules, files, receipts);
  }

  lemma Reserving(files: Files, intent: Content)
    requires (forall n :: n in files ==> n.DeferredFile?) && intent.IntentDoc? && |intent.planned| <= MAX_ATTEMPT_CALLS
    ensures Live(files[IntentFile := intent], [], [])
  {
    assert Plan(intent)[..0] == [];
  }

  lemma Intending(rules: Rules, files: Files, served: seq<Wire>, receipts: seq<Receipt>)
    requires Live(files, served, receipts) && |receipts| < |files[IntentFile].planned|
    ensures CallFile(|receipts| + 1) !in files
    ensures var i, intent := |receipts| + 1, files[IntentFile];
      var files' := files[CallFile(i) := CallDoc(intent.planned[i - 1], WireOf(intent, i))];
      && Consistent(rules, files', served) && Consistent(rules, files', served + [WireOf(intent, i)])
  {
    var i, intent := |receipts| + 1, files[IntentFile];
    var files' := files[CallFile(i) := CallDoc(intent.planned[i - 1], WireOf(intent, i))];
    AllValidated(files, receipts);
    assert Plan(intent)[..i] == Plan(intent)[..i - 1] + [WireOf(intent, i)];
    assert Receipts(files', receipts) && Closing(rules, files', receipts);
    assert Calling(files', served, i, i - 1);
    assert Calling(files', served + [WireOf(intent, i)], i, i - 1);
  }

  lemma AllValidated(files: Files, receipts: seq<Receipt>)
    requires Receipts(files, receipts) && forall r :: r in receipts ==> r.status == Validated
    ensures forall i: nat :: 1 <= i <= |receipts| ==>
              files[ReceiptFile(i)].ReceiptDoc? && files[ReceiptFile(i)].receipt.status == Validated
  {
  }

  lemma Receiving(rules: Rules, files: Files, served: seq<Wire>, receipts: seq<Receipt>, before: int, reply: Reply)
    requires Live(files, served, receipts) && |receipts| < |files[IntentFile].planned|
    ensures var i, intent := |receipts| + 1, files[IntentFile];
      var r := ReceiptOf(rules, intent, i, before, reply);
      var called := files[CallFile(i) := CallDoc(intent.planned[i - 1], WireOf(intent, i))];
      var files' := called[ReceiptFile(i) := ReceiptDoc(r)];
      && ReceiptFile(i) !in called
      && Consistent(rules, files', served + [WireOf(intent, i)]) && Receipts(files', receipts + [r])
      && (r.status == Validated ==> Live(files', served + [WireOf(intent, i)], receipts + [r]))
      && forall n :: n in files' && IsClosing(n) ==> n.DeferredFile?
  {
    var i, intent := |receipts| + 1, files[IntentFile];
    var r := ReceiptOf(rules, intent, i, before, reply);
    var called := files[CallFile(i) := CallDoc(intent.planned[i - 1], WireOf(intent, i))];
    var files' := called[ReceiptFile(i) := ReceiptDoc(r)];
    AllValidated(files, receipts);
    assert Plan(intent)[..i] == Plan(intent)[..i - 1] + [WireOf(intent, i)];
    assert Receipts(files', receipts + [r]) && Closing(rules, files', receipts + [r]);
    assert Calling(files', served + [WireOf(intent, i)], i, i);
    hide Calling, Closing, Receipts, Plan, ReceiptOf, WireOf;
  }

  /** Adding one closing document. */
  lemma Adding(rules: Rules, files: Files, served: seq<Wire>, receipts: seq<Receipt>, n: Name, doc: Content)
    requires Consistent(rules, files, served) && IntentFile in files && Receipts(files, receipts)
    requires n !in files && IsClosing(n) && Closing(rules, files[n := doc], receipts)
    ensures Consistent(rules, files[n := doc], served) && Receipts(files[n := doc], receipts)
  {
    hide Closing, InWindow;
    var x: nat, y: nat :| Calling(files, served, x, y);
    assert Calling(files[n := doc], served, x, y);
  }

  // ---------------------------------------------------------------- the runs

  datatype Outcome =
    | Killed
    | Refused
    | Deferred
    | Completed(calls: nat, reused: bool)

  datatype Written = Stopped | Clash | Saved

  class Capsule {
    var files: Files
    var served: seq<Wire>
    var budget: nat
    const rules: Rules

    constructor (rules: Rules, files: Files, served: seq<Wire>, budget: nat)
      ensures this.rules == rules && this.files == files && this.served == served && this.budget == budget
    {
      this.rules, this.files, this.served, this.budget := rules, files, served, budget;
    }

    /** `_write`: creates the file, accepts identical bytes, refuses anything else. */
    method Write(name: Name, content: Content) returns (w: Written)
      modifies this`files, this`budget
      ensures w.Stopped? <==> old(budget) == 0
      ensures budget == if old(budget) == 0 then 0 else old(budget) - 1
      ensures w.Saved? ==> files == old(files)[name := content] && (name in old(files) ==> files == old(files))
      ensures !w.Saved? ==> files == old(files)
      ensures w.Clash? <==> old(budget) > 0 && name in old(files) && old(files)[name] != content
    {
      if budget == 0 {
        return Stopped;
      }
      budget := budget - 1;
      if name in files {
        if files[name] != content {
          return Clash;
        }
        assert files == files[name := content];
        return Saved;
      }
      files := files[name := content];
      return Saved;
    }

    /** The request reaches the provider, unless the process dies first. */
    method Send(wire: Wire) returns (dead: bool)
      modifies this`served, this`budget
      ensures dead <==> old(budget) == 0
      ensures budget == if old(budget) == 0 then 0 else old(budget) - 1
      ensures dead ==> served == old(served)
      ensures !dead ==> served == old(served) + [wire]
    {
      if budget == 0 {
        return true;
      }
      budget := budget - 1;
      served := served + [wire];
      return false;
    }

    /** What the directory pass of `_saved_receipts` collects. */
    ghost predicate Collected(planned: seq<Native>, intents: map<nat, Content>, completed: map<nat, Receipt>)
      reads this`files
    {
      && (forall text :: StrayCallFile(text) !in files)
      && (forall i: nat :: i in intents <==> CallFile(i) in files)
      && (forall i: nat :: i in completed <==> ReceiptFile(i) in files)
      && (forall i: nat :: i in intents ==>
            && 1 <= i <= |planned| && files[CallFile(i)] == intents[i]
            && intents[i].CallDoc? && intents[i].native == planned[i - 1])
      && (forall i: nat :: i in completed ==>
            && 1 <= i <= |planned| && files[ReceiptFile(i)] == ReceiptDoc(completed[i])
            && completed[i].native == planned[i - 1])
    }

    method CollectCalls(planned: seq<Native>) returns (ok: bool, intents: map<nat, Content>, completed: map<nat, Receipt>)
      ensures ok ==> Collected(planned, intents, completed)
      ensures !ok ==> forall config, receipts :: !Accepted(files, planned, config, receipts)
    {
      var todo := set n | n in files.Keys && (n.CallFile? || n.ReceiptFile? || n.StrayCallFile?);
      intents, completed := map[], map[];
      while todo != {}
        invariant todo <= files.Keys && forall n :: n in todo ==> n.CallFile? || n.ReceiptFile? || n.StrayCallFile?
        invariant forall text :: StrayCallFile(text) in files ==> StrayCallFile(text) in todo
        invariant forall i: nat :: i in intents <==> CallFile(i) in files && CallFile(i) !in todo
        invariant forall i: nat :: i in completed <==> ReceiptFile(i) in files && ReceiptFile(i) !in todo
        invariant forall i: nat :: i in intents ==>
                    && 1 <= i <= |planned| && files[CallFile(i)] == intents[i]
                    && intents[i].CallDoc? && intents[i].native == planned[i - 1]
        invariant forall i: nat :: i in completed ==>
                    && 1 <= i <= |planned| && files[ReceiptFile(i)] == ReceiptDoc(completed[i])
                    && completed[i].native == planned[i - 1]
        decreases |todo|
      {
        var name :| name in todo;
        if name.StrayCallFile? || !(1 <= name.index <= |planned|) {
          return false, map[], map[];
        }
        var native := planned[name.index - 1];
        var saved := files[name];
        if name.CallFile? {
          if !saved.CallDoc? || saved.native != native {
            CallRefused(files, planned, name.index);
            return false, map[], map[];
          }
          intents := intents[name.index := saved];
        } else {
          if !saved.ReceiptDoc? || saved.receipt.native != native {
            ReceiptRefused(files, planned, name.index);
            return false, map[], map[];
          }
          completed := completed[name.index := saved.receipt];
        }
        todo := todo - {name};
      }
      return true, intents, completed;
    }

    lemma ReceiptRefused(files: Files, planned: seq<Native>, i: nat)
      requires ReceiptFile(i) in files && 1 <= i <= |planned|
      requires !files[ReceiptFile(i)].ReceiptDoc? || files[ReceiptFile(i)].receipt.native != planned[i - 1]
      ensures forall config, receipts :: !Accepted(files, planned, config, receipts)
    {
      forall config, receipts: seq<Receipt>
        ensures !Accepted(files, planned, config, receipts)
      {
        assert ReceiptGood(files, planned, config, receipts, i) ==> receipts[i - 1].native == planned[i - 1];
      }
    }

    lemma CallRefused(files: Files, planned: seq<Native>, i: nat)
      requires CallFile(i) in files && !CallGood(files, planned, i)
      ensures forall config, receipts :: !Accepted(files, planned, config, receipts)
    {
    }

    static ghost predicate Joined(config: Config, intents: map<nat, Content>, completed: map<nat, Receipt>, receipts: seq<Receipt>) {
      && |completed| == |receipts| <= |intents| <= |receipts| + 1
      && (forall i: nat :: 1 <= i <= |intents| ==> i in intents)
      && (forall i: nat :: 1 <= i <= |receipts| ==> JoinedAt(config, intents, completed, receipts, i))
    }

    static predicate JoinedAt(config: Config, intents: map<nat, Content>, completed: map<nat, Receipt>, receipts: seq<Receipt>, i: nat) {
      && 1 <= i <= |receipts| && i in completed && completed[i] == receipts[i - 1]
      && i in intents && intents[i].CallDoc? && intents[i].wire == receipts[i - 1].wire && receipts[i - 1].config == config
    }

    lemma CollectedCounts(planned: seq<Native>, config: Config, intents: map<nat, Content>, completed: map<nat, Receipt>,
                          receipts: seq<Receipt>)
      requires Collected(planned, intents, completed) && Accepted(files, planned, config, receipts)
      ensures Joined(config, intents, completed, receipts)
    {
      var n: nat :| CallsSaved(files, planned, config, receipts, n);
      CountNumbers(intents.Keys, n);
      CountNumbers(completed.Keys, |receipts|);
      assert |intents.Keys| == |intents| && |completed.Keys| == |completed|;
      forall i: nat | 1 <= i <= |receipts|
        ensures JoinedAt(config, intents, completed, receipts, i)
      {
        assert ReceiptFile(i) in files && ReceiptGood(files, planned, config, receipts, i);
      }
    }

    /** `_saved_receipts`. */
    method SavedReceipts(planned: seq<Native>, config: Config) returns (r: Option<seq<Receipt>>)
      ensures r.Some? ==> Accepted(files, planned, config, r.value)
      ensures forall receipts :: Accepted(files, planned, config, receipts) ==> r == Some(receipts)
    {
      hide Accepted, Joined;
      var ok, intents, completed := CollectCalls(planned);
      if !ok {
        return None;
      }
      forall receipts: seq<Receipt> | Accepted(files, planned, config, receipts)
        ensures Joined(config, intents, completed, receipts)
      {
        CollectedCounts(planned, config, intents, completed, receipts);
      }
      r := JoinCalls(config, intents, completed);
      if r.Some? {
        AllCollected(planned, config, intents, completed, r.value);
      }
    }

    /** The checks across intents and receipts. */
    static method JoinCalls(config: Config, intents: map<nat, Content>, completed: map<nat, Receipt>) returns (r: Option<seq<Receipt>>)
      requires forall i: nat :: i in intents ==> intents[i].CallDoc?
      ensures r.Some? ==> Joined(config, intents, completed, r.value)
      ensures r.None? ==> forall receipts :: !Joined(config, intents, completed, receipts)
    {
      if exists i: nat :: 1 <= i <= |intents| && i !in intents {
        return None;
      }
      if i: nat :| 1 <= i <= |completed| && i !in completed {
        NotJoined(config, intents, completed, i);
        return None;
      }
      if !(|completed| <= |intents| <= |completed| + 1) {
        return None;
      }
      var receipts: seq<Receipt> := [];
      for index := 1 to |completed| + 1
        invariant |receipts| == index - 1
        invariant forall i: nat :: 1 <= i < index ==> JoinedAt(config, intents, completed, receipts, i)
      {
        var receipt := completed[index];
        if intents[index].wire != receipt.wire || receipt.config != config {
          NotJoined(config, intents, completed, index);
          return None;
        }
        ghost var before := receipts;
        receipts := receipts + [receipt];
        forall i: nat | 1 <= i <= index
          ensures JoinedAt(config, intents, completed, receipts, i)
        {
          if i < index { assert JoinedAt(config, intents, completed, before, i); }
        }
      }
      return Some(receipts);
    }

    static lemma NotJoined(config: Config, intents: map<nat, Content>, completed: map<nat, Receipt>, i: nat)
      requires 1 <= i <= |completed|
      requires i in completed && i in intents && intents[i].CallDoc? ==>
                 intents[i].wire != completed[i].wire || completed[i].config != config
      ensures forall receipts :: !Joined(config, intents, completed, receipts)
    {
      forall receipts
        ensures !Joined(config, intents, completed, receipts)
      {
        assert !JoinedAt(config, intents, completed, receipts, i);
      }
    }

    lemma AllCollected(planned: seq<Native>, config: Config, intents: map<nat, Content>, completed: map<nat, Receipt>,
                       receipts: seq<Receipt>)
      requires Collected(planned, intents, completed) && Joined(config, intents, completed, receipts)
      ensures Accepted(files, planned, config, receipts)
      ensures forall other :: Accepted(files, planned, config, other) ==> other == receipts
    {
      assert Receipts(files, receipts) by { CollectedReceipts(planned, config, intents, completed, receipts); }
      assert CallsSaved(files, planned, config, receipts, |intents|) by {
        CollectedIntents(planned, config, intents, completed, receipts);
      }
      hide Joined, CallsSaved, Receipts;
      forall other | Accepted(files, planned, config, other)
        ensures other == receipts
      {
        SameReceipts(files, other, receipts);
      }
    }

    lemma CollectedReceipts(planned: seq<Native>, config: Config, intents: map<nat, Content>, completed: map<nat, Receipt>,
                            receipts: seq<Receipt>)
      requires Collected(planned, intents, completed) && Joined(config, intents, completed, receipts)
      ensures Receipts(files, receipts)
    {
      assert |completed.Keys| == |completed|;
      forall i: nat | 1 <= i <= |completed|
        ensures i in completed
      {
        assert JoinedAt(config, intents, completed, receipts, i);
      }
      OnlyNumbers(completed.Keys, |completed|);
      forall i: nat
        ensures ReceiptFile(i) in files <==> 1 <= i <= |receipts|
        ensures 1 <= i <= |receipts| ==> files[ReceiptFile(i)] == ReceiptDoc(receipts[i - 1])
      {
        assert i in completed <==> i in completed.Keys;
        if 1 <= i <= |receipts| { assert JoinedAt(config, intents, completed, receipts, i); }
      }
    }

    lemma CollectedIntents(planned: seq<Native>, config: Config, intents: map<nat, Content>, completed: map<nat, Receipt>,
                           receipts: seq<Receipt>)
      requires Collected(planned, intents, completed) && Joined(config, intents, completed, receipts)
      ensures CallsSaved(files, planned, config, receipts, |intents|)
    {
      assert |intents.Keys| == |intents|;
      OnlyNumbers(intents.Keys, |intents|);
      if |intents| > 0 { assert |intents| in intents; }
      forall i: nat
        ensures CallFile(i) in files <==> 1 <= i <= |intents|
        ensures CallFile(i) in files ==> CallGood(files, planned, i)
      {
        assert i in intents <==> i in intents.Keys;
      }
      forall i: nat | 1 <= i <= |receipts|
        ensures ReceiptGood(files, planned, config, receipts, i)
      {
        assert JoinedAt(config, intents, completed, receipts, i);
      }
    }

    /** What is known of a reserved directory and its receipts. */
    static ghost predicate Known(rules: Rules, files: Files, served: seq<Wire>, request: Request, receipts: seq<Receipt>) {
      && Consistent(rules, files, served) && IntentFile in files && files[IntentFile].IntentDoc?
      && files[IntentFile].request == request && Receipts(files, receipts)
    }

    static lemma AddClock(rules: Rules, files: Files, served: seq<Wire>, request: Request, receipts: seq<Receipt>, at: int)
      requires Known(rules, files, served, request, receipts)
      ensures ClockFile in files ==> files[ClockFile].ClockDoc?
      ensures ClockFile !in files ==> Known(rules, files[ClockFile := ClockDoc(request, at)], served, request, receipts)
    {
      TheseReceipts(rules, files, served, receipts);
      if ClockFile !in files { Adding(rules, files, served, receipts, ClockFile, ClockDoc(request, at)); }
    }

    static lemma AddBundle(rules: Rules, files: Files, served: seq<Wire>, request: Request, receipts: seq<Receipt>, at: int)
      requires Known(rules, files, served, request, receipts)
      requires ClockFile in files && files[ClockFile].ClockDoc? && files[ClockFile].completedAt == at
      requires InWindow(request, receipts, at)
      ensures BundleFile in files ==> files[BundleFile] == BundleDoc(Sealed(request, at, receipts))
      ensures BundleFile !in files ==>
                Known(rules, files[BundleFile := BundleDoc(Sealed(request, at, receipts))], served, request, receipts)
    {
      TheseReceipts(rules, files, served, receipts);
      if BundleFile !in files { Adding(rules, files, served, receipts, BundleFile, BundleDoc(Sealed(request, at, receipts))); }
    }

    static lemma AddSealed(rules: Rules, files: Files, served: seq<Wire>, request: Request, receipts: seq<Receipt>, bundle: Sealed)
      requires Known(rules, files, served, request, receipts)
      requires BundleFile in files && files[BundleFile] == BundleDoc(bundle)
      ensures SealedFile in files ==> files[SealedFile] == SealedDoc(bundle)
      ensures SealedFile !in files ==>
                AnalysisFile !in files && Known(rules, files[SealedFile := SealedDoc(bundle)], served, request, receipts)
    {
      TheseReceipts(rules, files, served, receipts);
      if SealedFile !in files { Adding(rules, files, served, receipts, SealedFile, SealedDoc(bundle)); }
    }

    static lemma AddAnalysis(rules: Rules, files: Files, served: seq<Wire>, request: Request, receipts: seq<Receipt>, bundle: Sealed)
      requires Known(rules, files, served, request, receipts)
      requires SealedFile in files && files[SealedFile] == SealedDoc(bundle)
      ensures AnalysisFile in files ==> files[AnalysisFile] == AnalysisDoc(rules.analysis(bundle))
      ensures AnalysisFile !in files ==>
                Known(rules, files[AnalysisFile := AnalysisDoc(rules.analysis(bundle))], served, request, receipts)
    {
      TheseReceipts(rules, files, served, receipts);
      if AnalysisFile !in files { Adding(rules, files, served, receipts, AnalysisFile, AnalysisDoc(rules.analysis(bundle))); }
    }

    static lemma TheseReceipts(rules: Rules, files: Files, served: seq<Wire>, receipts: seq<Receipt>)
      requires Consistent(rules, files, served) && IntentFile in files && Receipts(files, receipts)
      ensures Closing(rules, files, receipts) && Reserved(files)
    {
      hide Closing, Calling;
      var own :| Receipts(files, own) && Closing(rules, files, own);
      SameReceipts(files, own, receipts);
      var n: nat, m: nat :| Calling(files, served, n, m);
      CallingIsReserved(files, served, n, m);
    }

    static lemma CallingIsReserved(files: Files, served: seq<Wire>, n: nat, m: nat)
      requires Calling(files, served, n, m)
      ensures Reserved(files)
    {
    }

    /** Publishes the bundle, the sealed request and the analysis of a completion clock. */
    method Seal(request: Request, receipts: seq<Receipt>, at: int) returns (done: bool)
      requires Known(rules, files, served, request, receipts) && SealedFile !in files
      requires ClockFile in files && files[ClockFile].ClockDoc? && files[ClockFile].completedAt == at
      requires InWindow(request, receipts, at)
      modifies this`files, this`budget
      ensures Known(rules, files, served, request, receipts) && OnlyClosed(old(files), files)
      ensures if done then AnalysisFile in files else budget == 0 && old(budget) < 3
    {
      hide Known, InWindow;
      var bundle := Sealed(request, at, receipts);
      AddBundle(rules, files, served, request, receipts, at);
      var w := Write(BundleFile, BundleDoc(bundle));
      if w.Stopped? {
        return false;
      }
      AddSealed(rules, files, served, request, receipts, bundle);
      w := Write(SealedFile, SealedDoc(bundle));
      if w.Stopped? {
        return false;
      }
      AddAnalysis(rules, files, served, request, receipts, bundle);
      w := Write(AnalysisFile, AnalysisDoc(rules.analysis(bundle)));
      return w.Saved?;
    }

    /** `_finish_capture`: closes an attempt from its durable receipts.  It completes exactly when
        the completion clock, the one already durable or this reading, is in the receipts' window
        and not in the future. */
    method Finish(request: Request, receipts: seq<Receipt>, calls: nat, closing: int, final: int) returns (outcome: Outcome)
      requires Known(rules, files, served, request, receipts) && SealedFile !in files
      modifies this`files, this`budget
      ensures Known(rules, files, served, request, receipts) && OnlyClosed(old(files), files)
      ensures ClockFile in old(files) ==> old(files)[ClockFile].ClockDoc?
      ensures !outcome.Killed? && ClockFile !in old(files) ==> ClockFile in files && files[ClockFile] == ClockDoc(request, closing)
      ensures var at := if ClockFile in old(files) then old(files)[ClockFile].completedAt else closing;
        match outcome
        case Killed => budget == 0 && old(budget) < 4
        case Completed(n, reused) =>
          n == calls && !reused && InWindow(request, receipts, at) && at <= final && AnalysisFile in files
        case Refused => !(InWindow(request, receipts, at) && at <= final) && ClockFile in files
        case Deferred => false
    {
      hide Known;
      AddClock(rules, files, served, request, receipts, closing);
      var at := closing;
      if ClockFile in files {
        at := files[ClockFile].completedAt;
      } else {
        var w := Write(ClockFile, ClockDoc(request, at));
        if w.Stopped? {
          return Killed;
        }
      }
      if !(request.generatedAt <= at <= final) {
        return Refused;
      }
      if exists r :: r in receipts && !(request.generatedAt <= r.startedAt <= r.observedAt <= at) {
        return Refused;
      }
      ghost var f1 := files;
      assert OnlyClosed(old(files), f1);
      var done := Seal(request, receipts, at);
      if !done {
        return Killed;
      }
      return Completed(calls, false);
    }

    static lemma OwnReceipts(rules: Rules, files: Files, served: seq<Wire>) returns (receipts: seq<Receipt>)
      requires Consistent(rules, files, served) && IntentFile in files
      ensures Receipts(files, receipts)
    {
      receipts :| Receipts(files, receipts) && Closing(rules, files, receipts);
    }

    // ---------------------------------------------------------------- capture and recovery

    /** Whether a run after the reservation completes, given the receipts the directory holds. */
    static ghost predicate Recovers(files: Files, receipts: seq<Receipt>, request: Request, planned: seq<Native>, world: World,
                                    recover: bool)
      requires Reserved(files)
    {
      && files[IntentFile].request == request && files[IntentFile].planned == planned
      && if AnalysisFile in files then true
         else if SealedFile in files then recover
         else
           && recover
           && var at := if ClockFile in files then ClockOf(files) else world.closing;
              && request.generatedAt <= at <= world.final
              && forall r :: r in receipts ==> request.generatedAt <= r.startedAt <= r.observedAt <= at
    }

    static lemma WindowIs(request: Request, receipts: seq<Receipt>, at: int)
      ensures InWindow(request, receipts, at) <==>
                && request.generatedAt <= at
                && forall r :: r in receipts ==> request.generatedAt <= r.startedAt <= r.observedAt <= at
    {
    }

    /** `capture_modeldock` once a reservation exists: never calls the provider. */
    method Resume(request: Request, planned: seq<Native>, world: World, recover: bool) returns (outcome: Outcome)
      requires Consistent(rules, files, served) && IntentFile in files
      modifies this`files, this`budget
      ensures Ran(rules, old(files), old(served), files, served)
      ensures Reserved(old(files)) && (DeferredFile in files ==> DeferredFile in old(files))
      ensures outcome.Killed? ==> budget == 0 && old(budget) < 4
      ensures forall receipts :: Receipts(old(files), receipts) && !outcome.Killed? ==>
                (outcome.Completed? <==> Recovers(old(files), receipts, request, planned, world, recover))
      ensures outcome.Completed? ==> outcome.calls == 0 && AnalysisFile in files
    {
      hide Consistent, Receipts, InWindow;
      ghost var own := OwnReceipts(rules, files, served);
      WindowIs(request, own, if ClockFile in files then ClockOf(files) else world.closing);
      TheseReceipts(rules, files, served, own);
      var intent := files[IntentFile];
      forall receipts | Receipts(files, receipts)
        ensures receipts == own
      {
        SameReceipts(files, receipts, own);
      }
      assert OnlyClosed(files, files);
      if intent.request != request || intent.planned != planned {
        return Refused;
      }
      CrashStatesAreAccepted(rules, files, served);
      var saved := SavedReceipts(planned, intent.config);
      AcceptedIs(own, intent.planned, intent.config);
      if saved.None? {
        return Refused;
      }
      if SealedFile in files {
        var sealed := files[SealedFile];
        if !sealed.SealedDoc? || ClockFile !in files || files[ClockFile] != ClockDoc(request, sealed.sealed.recordedAt)
           || sealed.sealed.receipts != saved.value {
          return Refused;
        }
        if AnalysisFile !in files {
          if !recover {
            return Refused;
          }
          AddAnalysis(rules, files, served, request, own, sealed.sealed);
          var w := Write(AnalysisFile, AnalysisDoc(rules.analysis(sealed.sealed)));
          if w.Stopped? {
            return Killed;
          }
        } else if files[AnalysisFile] != AnalysisDoc(rules.analysis(sealed.sealed)) {
          return Refused;
        }
        return Completed(0, true);
      }
      if !recover {
        return Refused;
      }
      outcome := Finish(request, saved.value, 0, world.closing, world.final);
    }

    lemma AcceptedIs(own: seq<Receipt>, planned: seq<Native>, config: Config)
      requires Receipts(files, own) && exists receipts :: Accepted(files, planned, config, receipts)
      ensures Accepted(files, planned, config, own)
    {
      var receipts :| Accepted(files, planned, config, receipts);
      SameReceipts(files, receipts, own);
    }

    static function ClockOf(files: Files): int
      requires ClockFile in files
    {
      if files[ClockFile].ClockDoc? then files[ClockFile].completedAt else 0
    }

    /** `capture_modeldock`: a run, of any kind, on any state a directory can be in. */
    method Capture(request: Request, planned: seq<Native>, config: Config, world: World, recover: bool)
        returns (outcome: Outcome, ghost ended: int)
      requires Consistent(rules, files, served)
      modifies this`files, this`served, this`budget
      ensures Ran(rules, old(files), old(served), files, served)
      ensures recover || IntentFile in old(files) ==> served == old(served)
      ensures outcome.Killed? ==> budget == 0 && old(budget) < 3 * |planned| + 5
      ensures outcome.Completed? ==> outcome.calls == |served| - |old(served)|
      ensures planned != [] && DeferredFile in files ==> DeferredFile in old(files)
      ensures (forall i: nat :: i < |served| - |old(served)| ==> MetBudget(world, config, i)) ==>
                ended - world.started <= MAX_ATTEMPT_SECONDS
      ensures IntentFile in old(files) ==> Reserved(old(files))
      ensures IntentFile in old(files) && 0 < |planned| <= MAX_ATTEMPT_CALLS && !outcome.Killed? ==>
                forall receipts :: Receipts(old(files), receipts) ==>
                  (outcome.Completed? <==> Recovers(old(files), receipts, request, planned, world, recover))
      ensures served != old(served) ==>
                && old(served) == [] && SentWell(rules, request, planned, config, world, served)
                && ReceiptsSay(rules, request, planned, config, world, files, served)
      ensures !recover && IntentFile !in old(files) && 0 < |planned| <= MAX_ATTEMPT_CALLS && !outcome.Killed?
                && 0 <= world.start - request.generatedAt <= 5 * 60 && config.timeout <= MAX_ATTEMPT_SECONDS ==>
                StoppedFor(rules, planned, config, world, |served|) && forall i: nat :: 1 <= i <= |served| ==> ReceiptFile(i) in files
      ensures !recover && IntentFile !in old(files) && 0 < |planned| <= MAX_ATTEMPT_CALLS && !outcome.Killed?
                && 0 <= world.start - request.generatedAt <= 5 * 60 && config.timeout <= MAX_ATTEMPT_SECONDS ==>
                Made(IntentDoc(request, planned, config), world, outcome)
    {
      hide Consistent, Made, Receipts, InWindow;
      ended := world.started;
      if IntentFile in files { CrashStatesAreAccepted(rules, files, served); }
      if IntentFile in files && files[IntentFile].IntentDoc? && files[IntentFile].request != request {
        SameRan();
        return Refused, ended;
      }
      if planned == [] {
        DeferredKeeps(request);
        var w := Write(DeferredFile, DeferredDoc(request));
        return (if w.Stopped? then Killed else if w.Clash? then Refused else Deferred), ended;
      }
      if |planned| > MAX_ATTEMPT_CALLS {
        SameRan();
        return Refused, ended;
      }
      if IntentFile in files {
        outcome := Resume(request, planned, world, recover);
        return outcome, ended;
      }
      if recover || !(0 <= world.start - request.generatedAt <= 5 * 60) || config.timeout > MAX_ATTEMPT_SECONDS {
        SameRan();
        return Refused, ended;
      }
      Unreserved(rules, files, served);
      outcome, ended := Attempt(request, planned, config, world);
    }

    lemma SameRan()
      requires Consistent(rules, files, served)
      ensures Ran(rules, files, served, files, served)
    {
    }

    lemma DeferredKeeps(request: Request)
      requires Consistent(rules, files, served)
      ensures Ran(rules, files, served, files, served)
      ensures DeferredFile !in files ==> Ran(rules, files, served, files[DeferredFile := DeferredDoc(request)], served)
    {
      if IntentFile in files && DeferredFile !in files {
        var receipts :| Receipts(files, receipts) && Closing(rules, files, receipts);
        Adding(rules, files, served, receipts, DeferredFile, DeferredDoc(request));
      }
    }

    /** One call: a durable intent, the request, a durable receipt. */
    method Call(intent: Content, world: World, receipts: seq<Receipt>) returns (dead: bool, receipt: Receipt)
      requires Live(files, served, receipts) && files[IntentFile] == intent && |receipts| < |intent.planned|
      modifies this`files, this`served, this`budget
      ensures forall n :: n in old(files) ==> n in files && files[n] == old(files)[n]
      ensures DeferredFile in files ==> DeferredFile in old(files)
      ensures Consistent(rules, files, served)
      ensures dead ==> budget == 0 && old(budget) < 3 && |receipts| <= |served| <= |receipts| + 1
      ensures dead ==> forall i: nat :: ReceiptFile(i) in files ==> ReceiptFile(i) in old(files)
      ensures !dead ==> budget + 3 == old(budget)
      ensures receipt == ReceiptOf(rules, intent, |receipts| + 1, world.before(|receipts|), world.reply(|receipts|))
      ensures !dead ==>
                && Known(rules, files, served, intent.request, receipts + [receipt]) && SealedFile !in files && ClockFile !in files
                && |served| == |receipts| + 1
                && (receipt.status == Validated ==> Live(files, served, receipts + [receipt]))
    {
      hide Consistent, Calling, Live, Closing, Receipts;
      var k, index := |receipts|, |receipts| + 1;
      LiveShows(rules, files, served, receipts);
      var wire := WireOf(intent, index);
      receipt := ReceiptOf(rules, intent, index, world.before(k), world.reply(k));
      Intending(rules, files, served, receipts);
      Receiving(rules, files, served, receipts, world.before(k), world.reply(k));
      var w := Write(CallFile(index), CallDoc(intent.planned[k], wire));
      if w.Stopped? {
        return true, receipt;
      }
      dead := Send(wire);
      if dead {
        return true, receipt;
      }
      w := Write(ReceiptFile(index), ReceiptDoc(receipt));
      return w.Stopped?, receipt;
    }

    /** What an attempt that was not killed leaves: exactly the calls it could make, each with its
        receipt, and a completed capture exactly when the completion clock is in their window. */
    ghost predicate Made(intent: Content, world: World, outcome: Outcome)
      requires intent.IntentDoc?
      reads this`files, this`served
    {
      var answers := Answers(rules, intent, world, Reach(rules, intent, world, 0));
      && IntentFile in files && files[IntentFile] == intent
      && |served| == |answers| && Receipts(files, answers)
      && ClockFile in files && files[ClockFile] == ClockDoc(intent.request, world.closing)
      && (outcome == Completed(|answers|, false) <==>
            InWindow(intent.request, answers, world.closing) && world.closing <= world.final)
      && (outcome == Completed(|answers|, false) || outcome == Refused)
    }

    /** The one run that reaches the provider: if every call meets its delivery budget, the last
        answer is heard within the seconds of the attempt. */
    method Attempt(request: Request, planned: seq<Native>, config: Config, world: World)
        returns (outcome: Outcome, ghost ended: int)
      requires Consistent(rules, files, served) && IntentFile !in files && |planned| <= MAX_ATTEMPT_CALLS
      modifies this`files, this`served, this`budget
      ensures Ran(rules, old(files), old(served), files, served)
      ensures outcome.Killed? ==> budget == 0 && old(budget) < 3 * |planned| + 5
      ensures outcome.Completed? ==> outcome.calls == |served| - |old(served)|
      ensures DeferredFile in files ==> DeferredFile in old(files)
      ensures (forall i: nat :: i < |served| ==> MetBudget(world, config, i)) ==> ended - world.started <= MAX_ATTEMPT_SECONDS
      ensures !outcome.Killed? ==> ended == LastAnswer(world, |served|)
      ensures SentWell(rules, request, planned, config, world, served)
      ensures ReceiptsSay(rules, request, planned, config, world, files, served)
      ensures !outcome.Killed? ==>
                && StoppedFor(rules, planned, config, world, |served|)
                && forall i: nat :: 1 <= i <= |served| ==> ReceiptFile(i) in files
      ensures !outcome.Killed? ==> Made(IntentDoc(request, planned, config), world, outcome)
    {
      hide Consistent, Calling, Live, Closing, Receipts, Reserved, InWindow, ReceiptOf, Answers, Plan, WireOf;
      hide SentWell, ReceiptsSay, StoppedFor, GoodReply, Says, Reach;
      ended := world.started;
      var intent := IntentDoc(request, planned, config);
      Unreserved(rules, files, served);
      NothingSent(rules, request, planned, config, world, files, served);
      Reserving(files, intent);
      LiveIsConsistent(rules, files[IntentFile := intent], [], []);
      var w := Write(IntentFile, intent);
      if w.Stopped? {
        return Killed, ended;
      }
      var dead, receipts;
      dead, receipts, ended := CallAll(intent, world);
      if dead {
        return Killed, ended;
      }
      ghost var closing := files;
      outcome := Finish(request, receipts, |receipts|, world.closing, world.final);
      ClosedReceipts(rules, request, planned, config, world, closing, files, served);
    }

    /** The calls of an attempt, one after the other, until none is left, one is not validated, or the
        next cannot be afforded. */
    method CallAll(intent: Content, world: World) returns (dead: bool, receipts: seq<Receipt>, ghost ended: int)
      requires Live(files, served, []) && IntentFile in files && files[IntentFile] == intent && intent.IntentDoc?
      modifies this`files, this`served, this`budget
      ensures Consistent(rules, files, served)
      ensures forall n :: n in old(files) ==> n in files && files[n] == old(files)[n]
      ensures DeferredFile in files ==> DeferredFile in old(files)
      ensures dead ==> budget == 0 && old(budget) < 3 * |intent.planned|
      ensures |served| <= |intent.planned| && SentWell(rules, intent.request, intent.planned, intent.config, world, served)
      ensures ReceiptsSay(rules, intent.request, intent.planned, intent.config, world, files, served)
      ensures (forall i: nat :: i < |served| ==> MetBudget(world, intent.config, i)) ==> ended - world.started <= MAX_ATTEMPT_SECONDS
      ensures !dead ==>
                && Known(rules, files, served, intent.request, receipts) && SealedFile !in files && ClockFile !in files
                && |served| == |receipts| == Reach(rules, intent, world, 0) && receipts == Answers(rules, intent, world, |receipts|)
                && ended == LastAnswer(world, |served|) && budget + 3 * |receipts| == old(budget)
                && StoppedFor(rules, intent.planned, intent.config, world, |served|)
                && forall i: nat :: 1 <= i <= |served| ==> ReceiptFile(i) in files
    {
      hide Consistent, Calling, Live, Closing, Receipts, Reserved, InWindow, ReceiptOf, Answers, Plan, WireOf;
      hide SentWell, ReceiptsSay, StoppedFor, GoodReply, Says;
      var planned := intent.planned;
      ended := world.started;
      receipts := [];
      var failed := false;
      NoAnswers(rules, intent, world);
      LiveShows(rules, files, served, receipts);
      while |receipts| < |planned| && !failed
        invariant !failed ==> Live(files, served, receipts)
        invariant Known(rules, files, served, intent.request, receipts) && SealedFile !in files && files[IntentFile] == intent
        invariant |served| == |receipts| <= |planned| && receipts == Answers(rules, intent, world, |receipts|)
        invariant Reach(rules, intent, world, 0) == if failed then |receipts| else Reach(rules, intent, world, |receipts|)
        invariant ClockFile !in files
        invariant forall n :: n in old(files) ==> n in files && files[n] == old(files)[n]
        invariant DeferredFile in files ==> DeferredFile in old(files)
        invariant ended == LastAnswer(world, |receipts|) && budget + 3 * |receipts| == old(budget)
        invariant (forall i: nat :: i < |receipts| ==> MetBudget(world, intent.config, i)) ==>
                    ended - world.started <= MAX_ATTEMPT_SECONDS
        decreases |planned| - |receipts|
      {
        var k := |receipts|;
        if world.check(k) - world.started + intent.config.timeout > MAX_ATTEMPT_SECONDS
           || rules.expired(planned[k], world.current(k)) {
          assert Reach(rules, intent, world, k) == k;
          break;
        }
        ghost var had := files;
        var stopped, receipt := Call(intent, world, receipts);
        if stopped {
          assert Reach(rules, intent, world, 0) >= k + 1;
          KilledSays(rules, intent.request, planned, intent.config, world, had, files, served, receipts);
          return true, receipts, ended;
        }
        ended := world.end(k);
        assert MetBudget(world, intent.config, k) ==> ended - world.started <= MAX_ATTEMPT_SECONDS;
        AnswersNext(rules, intent, world, k);
        receipts := receipts + [receipt];
        failed := receipt.status != Validated;
      }
      assert Reach(rules, intent, world, 0) == |receipts|;
      EndSays(rules, intent.request, planned, intent.config, world, files, served, receipts);
      return false, receipts, ended;
    }

    static lemma NothingSent(rules: Rules, request: Request, planned: seq<Native>, config: Config, world: World, files: Files,
                             served: seq<Wire>)
      requires served == [] && forall n :: n in files ==> n.DeferredFile?
      ensures SentWell(rules, request, planned, config, world, served)
      ensures ReceiptsSay(rules, request, planned, config, world, files, served)
      ensures var intent := IntentDoc(request, planned, config);
        ReceiptsSay(rules, request, planned, config, world, files[IntentFile := intent], served)
    {
    }

    /** The number of calls an attempt makes, in terms of the clocks and the replies. */
    static lemma {:induction false} ReachSays(rules: Rules, intent: Content, world: World, k: nat)
      requires intent.IntentDoc? && k <= |intent.planned|
      ensures var n := Reach(rules, intent, world, k);
        && (n == k ==> k == |intent.planned| || !Affordable(rules, intent.planned[k], intent.config, world, k))
        && (n > k ==> StoppedFor(rules, intent.planned, intent.config, world, n))
        && (forall i: nat :: k <= i < n ==> Affordable(rules, intent.planned[i], intent.config, world, i))
        && (forall i: nat :: k <= i && i + 1 < n ==> GoodReply(rules, intent.planned[i], world.reply(i)))
      decreases |intent.planned| - k
    {
      if k < |intent.planned| && Affordable(rules, intent.planned[k], intent.config, world, k) {
        StatusSays(rules, intent, k, world);
        if GoodReply(rules, intent.planned[k], world.reply(k)) {
          hide ReceiptOf;
          ReachSays(rules, intent, world, k + 1);
        }
      }
    }

    static lemma SentIsWell(rules: Rules, request: Request, planned: seq<Native>, config: Config, world: World, files: Files,
                            served: seq<Wire>)
      requires Consistent(rules, files, served) && IntentFile in files && files[IntentFile] == IntentDoc(request, planned, config)
      requires |served| <= Reach(rules, IntentDoc(request, planned, config), world, 0)
      ensures SentWell(rules, request, planned, config, world, served)
    {
      hide Reach, Consistent, GoodReply, Affordable;
      ServedWires(rules, files, served, request, planned, config);
      ReachSays(rules, IntentDoc(request, planned, config), world, 0);
    }

    static lemma KilledSays(rules: Rules, request: Request, planned: seq<Native>, config: Config, world: World, had: Files,
                            files: Files, served: seq<Wire>, receipts: seq<Receipt>)
      requires Consistent(rules, files, served) && IntentFile in files && files[IntentFile] == IntentDoc(request, planned, config)
      requires |receipts| <= |served| <= Reach(rules, IntentDoc(request, planned, config), world, 0)
      requires Receipts(had, receipts) && receipts == Answers(rules, IntentDoc(request, planned, config), world, |receipts|)
      requires forall n :: n in had ==> n in files && files[n] == had[n]
      requires forall i: nat :: ReceiptFile(i) in files ==> ReceiptFile(i) in had
      ensures SentWell(rules, request, planned, config, world, served)
      ensures ReceiptsSay(rules, request, planned, config, world, files, served)
    {
      hide Reach, Consistent, Receipts, Answers, Says, GoodReply, Affordable;
      SentIsWell(rules, request, planned, config, world, files, served);
      AnswersSay(rules, request, planned, config, world, had, served[..|receipts|], receipts);
    }

    static lemma EndSays(rules: Rules, request: Request, planned: seq<Native>, config: Config, world: World, files: Files,
                         served: seq<Wire>, receipts: seq<Receipt>)
      requires Consistent(rules, files, served) && IntentFile in files && files[IntentFile] == IntentDoc(request, planned, config)
      requires |receipts| == |served| == Reach(rules, IntentDoc(request, planned, config), world, 0)
      requires Receipts(files, receipts) && receipts == Answers(rules, IntentDoc(request, planned, config), world, |receipts|)
      ensures SentWell(rules, request, planned, config, world, served)
      ensures ReceiptsSay(rules, request, planned, config, world, files, served)
      ensures StoppedFor(rules, planned, config, world, |served|)
      ensures forall i: nat :: 1 <= i <= |served| ==> ReceiptFile(i) in files
    {
      hide Reach, Consistent, Receipts, Answers, Says, GoodReply, Affordable;
      SentIsWell(rules, request, planned, config, world, files, served);
      ReachSays(rules, IntentDoc(request, planned, config), world, 0);
      AnswersSay(rules, request, planned, config, world, files, served, receipts);
    }

    static lemma StatusSays(rules: Rules, intent: Content, k: nat, world: World)
      requires intent.IntentDoc? && k < |intent.planned|
      ensures ReceiptOf(rules, intent, k + 1, world.before(k), world.reply(k)).status.Validated?
              <==> GoodReply(rules, intent.planned[k], world.reply(k))
    {
    }

    /** Receipts that are the answers so far say what came back. */
    static lemma AnswersSay(rules: Rules, request: Request, planned: seq<Native>, config: Config, world: World, files: Files,
                            served: seq<Wire>, receipts: seq<Receipt>)
      requires |receipts| == |served| <= |planned| && Receipts(files, receipts)
      requires receipts == Answers(rules, IntentDoc(request, planned, config), world, |receipts|)
      ensures ReceiptsSay(rules, request, planned, config, world, files, served)
      ensures forall i: nat :: 1 <= i <= |served| ==> ReceiptFile(i) in files
    {
      hide Says, ReceiptOf;
      var intent := IntentDoc(request, planned, config);
      forall k: nat | k < |receipts|
        ensures AnswerSays(rules, request, planned, config, world, receipts, k)
      {
        ReceiptSays(rules, intent, k + 1, world.before(k), world.reply(k));
      }
      forall i: nat | ReceiptFile(i) in files
        ensures 1 <= i <= |receipts| && files[ReceiptFile(i)] == ReceiptDoc(receipts[i - 1])
        ensures AnswerSays(rules, request, planned, config, world, receipts, i - 1)
      {
      }
    }

    static predicate AnswerSays(rules: Rules, request: Request, planned: seq<Native>, config: Config, world: World,
                                receipts: seq<Receipt>, k: nat)
      requires k < |receipts| && k < |planned|
    {
      && receipts[k].native == planned[k] && receipts[k].config == config
      && receipts[k].wire == Wire(planned[k], config, request.analysis)
      && Says(rules, receipts[k], planned[k], world.before(k), world.reply(k))
    }

    static lemma ClosedReceipts(rules: Rules, request: Request, planned: seq<Native>, config: Config, world: World, before: Files,
                                after: Files, served: seq<Wire>)
      requires |served| <= |planned| && ReceiptsSay(rules, request, planned, config, world, before, served)
      requires OnlyClosed(before, after)
      ensures ReceiptsSay(rules, request, planned, config, world, after, served)
      ensures forall i: nat :: ReceiptFile(i) in before ==> ReceiptFile(i) in after
    {
      hide Says;
    }

    /** The requests of a consistent directory are those of its plan. */
    static lemma ServedWires(rules: Rules, files: Files, served: seq<Wire>, request: Request, planned: seq<Native>, config: Config)
      requires Consistent(rules, files, served) && IntentFile in files && files[IntentFile] == IntentDoc(request, planned, config)
      ensures |served| <= |planned| && forall i :: 0 <= i < |served| ==> served[i] == Wire(planned[i], config, request.analysis)
    {
      var n: nat, m: nat :| Calling(files, served, n, m);
      assert forall i :: 0 <= i < |served| ==> served[i] == Plan(files[IntentFile])[..|served|][i];
    }

    static lemma Unreserved(rules: Rules, files: Files, served: seq<Wire>)
      requires Consistent(rules, files, served) && IntentFile !in files
      ensures served == [] && forall n :: n in files ==> n.DeferredFile?
    {
    }

    static lemma LiveShows(rules: Rules, files: Files, served: seq<Wire>, receipts: seq<Receipt>)
      requires Live(files, served, receipts)
      ensures Consistent(rules, files, served) && IntentFile in files && Receipts(files, receipts) && |served| == |receipts|
      ensures files[IntentFile].IntentDoc? && |receipts| <= |files[IntentFile].planned| && SealedFile !in files && ClockFile !in files
    {
      LiveIsConsistent(rules, files, served, receipts);
    }
  }

  // ---------------------------------------------------------------- when recovery is stuck

  const BEFORE := Request("a", 0)
  const SPY := Native("SPY", "Pathfinder")
  const LOCAL := Config("local", 60)

  /** One call, answered between 8 and 10; the wall clock then reads 9 when the capture is closed. */
  const STEPPED_BACK := World(0, 0, (k: nat) => 1, (k: nat) => 8, (k: nat) => 8, (k: nat) => Answer("text", 8, 10), (k: nat) => 3, 9, 11)

  function SteppedReceipt(): Receipt {
    Receipt(SPY, WireOf(IntentDoc(BEFORE, [SPY], LOCAL), 1), LOCAL, Validated, Some("text"), 8, 10)
  }

  /** What that capture leaves: a completion clock earlier than the answer it closes over. */
  function SteppedBack(): Files {
    var wire := WireOf(IntentDoc(BEFORE, [SPY], LOCAL), 1);
    map[IntentFile := IntentDoc(BEFORE, [SPY], LOCAL), CallFile(1) := CallDoc(SPY, wire),
        ReceiptFile(1) := ReceiptDoc(SteppedReceipt()), ClockFile := ClockDoc(BEFORE, 9)]
  }

  lemma SteppedBackClock(rules: Rules, files: Files, served: seq<Wire>)
    requires Consistent(rules, files, served) && IntentFile in files && files[IntentFile] == IntentDoc(BEFORE, [SPY], LOCAL)
    requires Receipts(files, [SteppedReceipt()]) && ClockFile in files && files[ClockFile] == ClockDoc(BEFORE, 9)
    requires DeferredFile !in files
    ensures files == SteppedBack() && served == [SteppedReceipt().wire]
  {
    var n: nat, m: nat :| Calling(files, served, n, m);
    ReceiptCount(files, [SteppedReceipt()], m);
    assert Plan(files[IntentFile])[..1] == [SteppedReceipt().wire];
    var receipts :| Receipts(files, receipts) && Closing(rules, files, receipts);
    SameReceipts(files, receipts, [SteppedReceipt()]);
    assert SteppedReceipt() in receipts;
    assert ReceiptFile(1) in files && files[ReceiptFile(1)] == ReceiptDoc([SteppedReceipt()][0]);
    assert CallFile(1) in files && files[CallFile(1)] == CallDoc(SPY, SteppedReceipt().wire);
    forall name | name in files
      ensures name in SteppedBack() && files[name] == SteppedBack()[name]
    {
      match name
      case CallFile(i) => assert i == 1;
      case ReceiptFile(i) => assert i == 1;
      case _ =>
    }
    assert files.Keys == SteppedBack().Keys;
  }

  lemma SteppedAnswers(rules: Rules)
    requires !rules.expired(SPY, 8) && !rules.expired(SPY, 10) && !rules.oversized("text")
    ensures var intent := IntentDoc(BEFORE, [SPY], LOCAL);
      Reach(rules, intent, STEPPED_BACK, 0) == 1 && Answers(rules, intent, STEPPED_BACK, 1) == [SteppedReceipt()]
  {
    var intent := IntentDoc(BEFORE, [SPY], LOCAL);
    assert ReceiptOf(rules, intent, 1, STEPPED_BACK.before(0), STEPPED_BACK.reply(0)) == SteppedReceipt();
    assert Reach(rules, intent, STEPPED_BACK, 1) == 1;
  }

  /** From an empty directory, a run that is never killed leaves exactly this directory, and no
      later recovery, whatever its clocks say and wherever it is killed, completes the capture. */
  method SteppedBackRun(rules: Rules, later: seq<World>, budgets: seq<nat>)
      returns (first: Outcome, files: Files, served: seq<Wire>, recoveries: seq<Outcome>)
    requires !rules.expired(SPY, 8) && !rules.expired(SPY, 10) && !rules.oversized("text") && |budgets| == |later|
    ensures first.Refused? && files == SteppedBack() && served == [SteppedReceipt().wire]
    ensures |recoveries| == |later| && forall i :: 0 <= i < |later| ==> !recoveries[i].Completed?
  {
    hide Consistent, Reach, Answers, Receipts, SteppedBack, InWindow;
    assert Consistent(rules, map[], []) by { NothingYet(rules); }
    var capsule := new Capsule(rules, map[], [], 8);
    SteppedAnswers(rules);
    OutsideWindow();
    ghost var ended;
    first, ended := capsule.Capture(BEFORE, [SPY], LOCAL, STEPPED_BACK, false);
    SteppedBackClock(rules, capsule.files, capsule.served);
    files, served, recoveries := capsule.files, capsule.served, [];
    NeverClosed();
    for i := 0 to |later|
      invariant |recoveries| == i && forall k :: 0 <= k < i ==> !recoveries[k].Completed?
      invariant capsule.rules == rules && Consistent(rules, capsule.files, capsule.served) && capsule.files == SteppedBack()
    {
      capsule.budget := budgets[i];
      var outcome;
      outcome, ended := capsule.Capture(BEFORE, [SPY], LOCAL, later[i], true);
      SteppedBackClock(rules, capsule.files, capsule.served);
      recoveries := recoveries + [outcome];
    }
  }

  lemma OutsideWindow()
    ensures !InWindow(BEFORE, [SteppedReceipt()], 9)
  {
    assert SteppedReceipt() in [SteppedReceipt()];
  }

  lemma NeverClosed()
    ensures Reserved(SteppedBack()) && Receipts(SteppedBack(), [SteppedReceipt()]) && DeferredFile !in SteppedBack()
    ensures ClockFile in SteppedBack() && SealedFile !in SteppedBack() && AnalysisFile !in SteppedBack()
    ensures SteppedBack()[ClockFile] == ClockDoc(BEFORE, 9) && SteppedBack()[IntentFile] == IntentDoc(BEFORE, [SPY], LOCAL)
  {
  }

  lemma NothingYet(rules: Rules)
    ensures Consistent(rules, map[], [])
  {
  }
}
