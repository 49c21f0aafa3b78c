/** The formation journal: one window's durable row, and what Brain is asked about it. */
module Formation {
  import opened Wrappers

  /** What a window stages, apart from its observation time. */
  datatype Input = Input(messages: seq<string>, context: string)
  datatype Stamp = Given(text: string) | SubmittedAt(ms: nat)
  datatype Source = Source(input: Input, observedAt: Stamp)
  datatype Request = Request(input: Input, timestamp: Option<string>, submittedAt: nat)

  datatype RowState = Pending | Accepted | Completed | Failed | Suppressed
  datatype FailureStage = SubmissionRejected | NativeFailed
  datatype Phase = Recorded | Processed | Available | ProcessingFailed

  /** The journal row. `source` stands for the input digest: digests are injective. */
  datatype Row = Row(
    attempt: nat, state: RowState, submittedAt: nat, observedAt: Stamp, source: Source,
    receipt: Option<nat>, native: Option<nat>, stage: Option<FailureStage>)

  /** Brain binds an idempotency key, here the attempt, to the first source it accepts, and
      may give the receipt its native conversation then or later. `request` remembers which
      submission was bound. */
  datatype Receipt = Receipt(source: Source, reference: nat, native: Option<nat>, request: nat)

  /** `lost` holds the attempts for which the host was told of an error although Brain
      had bound the key. */
  datatype Brain = Brain(bound: map<nat, Receipt>, lost: set<nat>)

  datatype Reply =
    | Answer(reference: nat, native: Option<nat>, phase: Phase)
    | Refuse
    | Lose(reference: nat, native: Option<nat>)
    | Exclude

  datatype Outcome = Observed(receipt: Receipt, phase: Phase) | Conflicted | Refused | Excluded

  function RequestedTime(request: Request): Stamp {
    match request.timestamp
    case Some(text) => Given(text)
    case None => SubmittedAt(request.submittedAt)
  }

  function NewRow(request: Request): Row {
    var time := RequestedTime(request);
    Row(0, Pending, request.submittedAt, time, Source(request.input, time), None, None, None)
  }

  /** The row a submission writes over an existing one that Brain has not taken in. */
  function Resubmit(existing: Row, request: Request): Row {
    var rejected := existing.state.Failed? || existing.receipt.Some?;
    var time := if rejected then RequestedTime(request) else existing.observedAt;
    Row(existing.attempt + (if rejected then 1 else 0), Pending,
        if rejected then request.submittedAt else existing.submittedAt,
        time, Source(request.input, time), None, None, None)
  }

  /** What a submission becomes when Brain holds its attempt's key for another source. */
  function Replace(row: Row, request: Request): Row {
    var time := RequestedTime(request);
    row.(attempt := row.attempt + 1, submittedAt := request.submittedAt, observedAt := time,
         source := Source(request.input, time))
  }

  function ApplyProgress(row: Row, phase: Phase): Row {
    match phase
    case Recorded => row.(state := Accepted, stage := None)
    case Processed => row.(state := Completed, stage := None)
    case Available => row.(state := Completed, stage := None)
    case ProcessingFailed =>
      row.(state := Failed, stage := Some(if row.native.Some? then NativeFailed else SubmissionRejected))
  }

  function Settle(row: Row, outcome: Outcome): Row {
    match outcome
    case Observed(receipt, phase) =>
      ApplyProgress(row.(receipt := Some(receipt.reference), native := receipt.native), phase)
    case Excluded => row.(state := Suppressed)
    case Refused => row.(state := Failed, stage := Some(SubmissionRejected))
    case Conflicted => row.(state := Failed, stage := Some(SubmissionRejected))
  }

  /** Brain's side of one `observe`. */
  function Ask(brain: Brain, attempt: nat, source: Source, request: nat, reply: Reply): (Brain, Outcome) {
    var taken := attempt in brain.bound;
    match reply
    case Exclude => (brain, Excluded)
    case Refuse => (if taken then brain.(lost := brain.lost + {attempt}) else brain, Refused)
    case Lose(reference, native) =>
      var bound := if taken then brain.bound
                   else brain.bound[attempt := Receipt(source, reference, native, request)];
      (Brain(bound, brain.lost + {attempt}), Refused)
    case Answer(reference, native, phase) =>
      if !taken then
        var receipt := Receipt(source, reference, native, request);
        (brain.(bound := brain.bound[attempt := receipt]), Observed(receipt, phase))
      else if brain.bound[attempt].source == source then
        (brain, Observed(brain.bound[attempt], phase))
      else
        (brain, Conflicted)
  }

  // ---------------------------------------------------------------- the machine

  datatype Pc =
    | Idle
    | Unsaved(sub: Row, request: Request, replaced: bool)
    | Saved(sub: Row, request: Request, replaced: bool)
    | Answered(sub: Row)

  datatype Asked = Asked(attempt: nat, source: Source)

  /** `requests` and `asks` are histories: the inputs submitted, and what Brain was asked.
      `left` holds the attempts a submission moved past while the row recorded their receipt
      and no native conversation. */
  datatype Machine = Machine(
    row: Option<Row>, brain: Brain, pc: Pc, requests: seq<Input>, asks: seq<Asked>, left: set<nat>)

  /** The host writes the row and asks Brain, in an order that matters. The machine takes one
      durable or external effect per action, so a process that dies between two effects is the
      action `Crash`. The class that follows runs the host's own loop and appends the actions
      it took to its log. */
  datatype Action =
    | Begin(request: Request)
    | Save
    | Observe(reply: Reply)
    | Record
    | Refresh(phase: Phase)
    | Attach(attempt: nat, native: nat)
    | Crash

  const Start: Machine := Machine(None, Brain(map[], {}), Idle, [], [], {})

  /** Brain starts the native conversation of a receipt it gave out without one. */
  function Attached(brain: Brain, attempt: nat, native: nat): Brain {
    if attempt in brain.bound && brain.bound[attempt].native.None?
    then brain.(bound := brain.bound[attempt := brain.bound[attempt].(native := Some(native))])
    else brain
  }

  /** The attempts left with a receipt once `sub` is saved over `row`. */
  function Left(left: set<nat>, row: Option<Row>, sub: Row): set<nat> {
    if row.Some? && row.value.receipt.Some? && sub.attempt > row.value.attempt then left + {row.value.attempt} else left
  }

  /** Rows a refresh leaves alone. */
  predicate Terminal(row: Row) {
    row.state.Completed? || row.state.Failed? || row.state.Suppressed?
  }

  function Refreshed(row: Row, brain: Brain, phase: Phase): Row
    requires row.attempt in brain.bound
  {
    var native := brain.bound[row.attempt].native;
    ApplyProgress(row.(native := if native.Some? then native else row.native), phase)
  }

  /** One effect; an action that is not enabled leaves the machine as it is. */
  function Apply(m: Machine, action: Action): Machine {
    match action
    case Begin(request) =>
      if !m.pc.Idle? then m else
      var m' := m.(requests := m.requests + [request.input]);
      if m.row.None? then m'.(row := Some(NewRow(request)), pc := Saved(NewRow(request), request, false))
      else if m.row.value.state.Suppressed? || m.row.value.native.Some? then m'
      else m'.(pc := Unsaved(Resubmit(m.row.value, request), request, false))
    case Save =>
      if !m.pc.Unsaved? then m else
      m.(row := Some(m.pc.sub), pc := Saved(m.pc.sub, m.pc.request, m.pc.replaced), left := Left(m.left, m.row, m.pc.sub))
    case Observe(reply) =>
      if !m.pc.Saved? || |m.requests| == 0 then m else
      var sub := m.pc.sub;
      var (brain, outcome) := Ask(m.brain, sub.attempt, sub.source, |m.requests| - 1, reply);
      var m' := m.(brain := brain, asks := m.asks + [Asked(sub.attempt, sub.source)]);
      if outcome.Conflicted? && !m.pc.replaced
      then m'.(pc := Unsaved(Replace(sub, m.pc.request), m.pc.request, true))
      else m'.(pc := Answered(Settle(sub, outcome)))
    case Record =>
      if !m.pc.Answered? then m else m.(row := Some(m.pc.sub), pc := Idle)
    case Refresh(phase) =>
      if m.pc.Idle? && m.row.Some? && !Terminal(m.row.value) && m.row.value.receipt.Some?
         && m.row.value.attempt in m.brain.bound
      then m.(row := Some(Refreshed(m.row.value, m.brain, phase)))
      else m
    case Attach(attempt, native) => m.(brain := Attached(m.brain, attempt, native))
    case Crash => m.(pc := Idle)
  }

  function Exec(actions: seq<Action>): Machine {
    if actions == [] then Start
    else Apply(Exec(actions[..|actions| - 1]), actions[|actions| - 1])
  }

  lemma ExecStep(actions: seq<Action>, action: Action)
    ensures Exec(actions + [action]) == Apply(Exec(actions), action)
  {
    assert (actions + [action])[..|actions|] == actions;
  }

  // ---------------------------------------------------------------- invariants

  /** Some submission in `(after, upTo]` carried another input. */
  ghost predicate ChangedBetween(requests: seq<Input>, input: Input, after: nat, upTo: int) {
    exists k :: after < k <= upTo && k < |requests| && requests[k] != input
  }

  /** Bound, and neither lost nor left behind. */
  predicate Held(brain: Brain, left: set<nat>, a: nat) {
    a in brain.bound && a !in brain.lost && a !in left
  }

  predicate HasConversation(brain: Brain, a: nat) { a in brain.bound && brain.bound[a].native.Some? }

  /** What a row, durable or about to be, says about Brain. */
  ghost predicate RowFits(row: Row, brain: Brain) {
    && row.source.observedAt == row.observedAt
    && (row.attempt in brain.bound ==> brain.bound[row.attempt].source.observedAt == row.observedAt)
    && (row.receipt.Some? ==>
          row.attempt in brain.bound
          && row.receipt == Some(brain.bound[row.attempt].reference)
          && (row.native.Some? ==> row.native == brain.bound[row.attempt].native))
    && (row.receipt.None? ==> row.native.None? && !row.state.Accepted? && !row.state.Completed?)
    && (row.state.Pending? ==> row.receipt.None?)
    && (row.state.Failed? && row.receipt.None? && row.attempt in brain.bound ==> row.attempt in brain.lost)
  }

  /** Why a submission may move past the attempt of row `e`. */
  predicate MayAdvance(e: Row, brain: Brain, input: Input) {
    && e.native.None?
    && (e.state.Failed? || e.receipt.Some?
        || (e.attempt in brain.bound && brain.bound[e.attempt].source.input != input))
  }

  ghost predicate ReceiptsFit(brain: Brain, left: set<nat>, requests: seq<Input>, attempt: nat) {
    && (forall a :: a in left ==> a < attempt)
    && (forall a :: a in brain.bound ==>
          a <= attempt
          && brain.bound[a].request < |requests|
          && requests[brain.bound[a].request] == brain.bound[a].source.input)
    && (forall a: nat :: a < attempt && Held(brain, left, a) ==>
          ChangedBetween(requests, brain.bound[a].source.input, brain.bound[a].request, |requests| - 1))
    && PairsFit(brain, left, requests)
  }

  /** Between two bindings, the first of which was held, the input changed. */
  ghost predicate PairsFit(brain: Brain, left: set<nat>, requests: seq<Input>) {
    forall i: nat, j: nat :: i < j && Held(brain, left, i) && j in brain.bound ==>
      ChangedBetween(requests, brain.bound[i].source.input, brain.bound[i].request, brain.bound[j].request)
  }

  ghost predicate AsksFit(m: Machine)
    requires m.row.Some?
  {
    && (forall k :: 0 <= k < |m.asks| ==>
          m.asks[k].attempt <= m.row.value.attempt
          && (m.asks[k].attempt == m.row.value.attempt ==> m.asks[k].source.observedAt == m.row.value.observedAt))
    && (forall i, j :: 0 <= i < |m.asks| && 0 <= j < |m.asks| && m.asks[i].attempt == m.asks[j].attempt ==>
          m.asks[i].source.observedAt == m.asks[j].source.observedAt)
  }

  predicate Submitting(m: Machine, sub: Row, request: Request) {
    && sub.state.Pending? && sub.receipt.None? && sub.native.None?
    && sub.source == Source(request.input, sub.observedAt)
    && |m.requests| > 0 && m.requests[|m.requests| - 1] == request.input
  }

  ghost predicate PcFits(m: Machine)
    requires m.row.Some?
  {
    var e := m.row.value;
    match m.pc
    case Idle => true
    case Saved(sub, request, replaced) =>
      e == sub && Submitting(m, sub, request) && (replaced ==> sub.attempt !in m.brain.bound)
    case Unsaved(sub, request, replaced) =>
      && Submitting(m, sub, request) && !e.state.Suppressed? && e.native.None?
      && (if sub.attempt == e.attempt then !replaced && sub.observedAt == e.observedAt && e.receipt.None? && !e.state.Failed?
          else sub.attempt == e.attempt + 1 && MayAdvance(e, m.brain, request.input))
    case Answered(sub) =>
      e.state.Pending? && sub.attempt == e.attempt && sub.observedAt == e.observedAt && RowFits(sub, m.brain)
  }

  ghost predicate Inv(m: Machine) {
    if m.row.None? then m.brain == Start.brain && m.asks == [] && m.left == {} && m.pc.Idle?
    else
      && RowFits(m.row.value, m.brain)
      && ReceiptsFit(m.brain, m.left, m.requests, m.row.value.attempt)
      && AsksFit(m) && PcFits(m)
  }

  lemma ChangedExtends(requests: seq<Input>, more: seq<Input>, input: Input, after: nat, upTo: int)
    requires ChangedBetween(requests, input, after, upTo)
    ensures forall upTo' :: upTo' >= upTo ==> ChangedBetween(requests + more, input, after, upTo')
  {
    var k :| after < k <= upTo && k < |requests| && requests[k] != input;
    assert (requests + more)[k] != input;
  }

  lemma BeginKeeps(m: Machine, request: Request)
    requires Inv(m)
    ensures Inv(Apply(m, Begin(request)))
  {
    if m.pc.Idle? && m.row.Some? {
      var m' := Apply(m, Begin(request));
      forall a: nat | a < m.row.value.attempt && Held(m.brain, m.left, a)
        ensures ChangedBetween(m'.requests, m.brain.bound[a].source.input, m.brain.bound[a].request, |m'.requests| - 1)
      {
        var r := m.brain.bound[a];
        ChangedExtends(m.requests, [request.input], r.source.input, r.request, |m.requests| - 1);
      }
      forall i: nat, j: nat | i < j && Held(m.brain, m.left, i) && j in m.brain.bound
        ensures ChangedBetween(m'.requests, m.brain.bound[i].source.input, m.brain.bound[i].request, m.brain.bound[j].request)
      {
        var r := m.brain.bound[i];
        ChangedExtends(m.requests, [request.input], r.source.input, r.request, m.brain.bound[j].request);
      }
    }
  }

  lemma SaveKeeps(m: Machine)
    requires Inv(m)
    ensures Inv(Apply(m, Save))
  {
    if m.row.Some? && m.pc.Unsaved? && m.pc.sub.attempt == m.row.value.attempt + 1 {
      var a := m.row.value.attempt;
      if Held(m.brain, Apply(m, Save).left, a) {
        // Neither a rejection nor a recorded receipt, so the bytes conflicted: the input changed since.
        var last := |m.requests| - 1;
        assert m.requests[last] != m.brain.bound[a].source.input;
        assert m.brain.bound[a].request < last <= last;
      }
    }
  }

  /** Brain keeps what it bound, and binds at most `attempt`, to `source`. */
  ghost predicate Binds(brain: Brain, brain': Brain, attempt: nat, source: Source, request: nat) {
    && (forall a :: a in brain.bound ==> a in brain'.bound && brain'.bound[a] == brain.bound[a])
    && (forall a :: a in brain'.bound && a !in brain.bound ==>
          a == attempt && brain'.bound[a].source == source && brain'.bound[a].request == request)
    && brain.lost <= brain'.lost
  }

  lemma AskBinds(brain: Brain, attempt: nat, source: Source, request: nat, reply: Reply)
    ensures Binds(brain, Ask(brain, attempt, source, request, reply).0, attempt, source, request)
  {
  }

  lemma ObserveKeepsRow(m: Machine, reply: Reply)
    requires Inv(m) && m.pc.Saved?
    ensures var m' := Apply(m, Observe(reply));
      m'.row == m.row && m'.row.Some? && RowFits(m'.row.value, m'.brain) && PcFits(m')
  {
  }

  lemma BindKeepsReceipts(brain: Brain, brain': Brain, left: set<nat>, requests: seq<Input>, attempt: nat, source: Source)
    requires ReceiptsFit(brain, left, requests, attempt)
    requires |requests| > 0 && requests[|requests| - 1] == source.input
    requires Binds(brain, brain', attempt, source, |requests| - 1)
    ensures ReceiptsFit(brain', left, requests, attempt)
  {
    forall i: nat, j: nat | i < j && Held(brain', left, i) && j in brain'.bound
      ensures ChangedBetween(requests, brain'.bound[i].source.input, brain'.bound[i].request, brain'.bound[j].request)
    {
      assert i < attempt && Held(brain, left, i);
    }
  }

  lemma AttachKeepsReceipts(brain: Brain, left: set<nat>, requests: seq<Input>, attempt: nat, a: nat, native: nat)
    requires ReceiptsFit(brain, left, requests, attempt)
    ensures ReceiptsFit(Attached(brain, a, native), left, requests, attempt)
  {
    var brain' := Attached(brain, a, native);
    assert forall k: nat :: Held(brain', left, k) <==> Held(brain, left, k);
    assert forall k :: k in brain.bound ==> brain'.bound[k].(native := None) == brain.bound[k].(native := None);
    hide Attached, ChangedBetween;
  }

  lemma AttachKeeps(m: Machine, attempt: nat, native: nat)
    requires Inv(m)
    ensures Inv(Apply(m, Attach(attempt, native)))
  {
    if m.row.Some? {
      AttachKeepsReceipts(m.brain, m.left, m.requests, m.row.value.attempt, attempt, native);
    }
    hide ReceiptsFit;
  }

  lemma ObserveKeepsAsks(m: Machine, reply: Reply)
    requires Inv(m) && m.pc.Saved?
    ensures Apply(m, Observe(reply)).row.Some? && AsksFit(Apply(m, Observe(reply)))
  {
    assert m.pc.sub == m.row.value;
  }

  lemma ObserveKeeps(m: Machine, reply: Reply)
    requires Inv(m)
    ensures Inv(Apply(m, Observe(reply)))
  {
    if m.row.Some? && m.pc.Saved? {
      ObserveKeepsRow(m, reply);
      var sub := m.pc.sub;
      AskBinds(m.brain, sub.attempt, sub.source, |m.requests| - 1, reply);
      BindKeepsReceipts(m.brain, Apply(m, Observe(reply)).brain, m.left, m.requests, sub.attempt, sub.source);
      ObserveKeepsAsks(m, reply);
    }
  }

  lemma {:induction false} InvHolds(actions: seq<Action>)
    ensures Inv(Exec(actions))
  {
    if actions != [] {
      InvHolds(actions[..|actions| - 1]);
      var m, action := Exec(actions[..|actions| - 1]), actions[|actions| - 1];
      match action
      case Begin(request) => BeginKeeps(m, request);
      case Save => SaveKeeps(m);
      case Observe(reply) => ObserveKeeps(m, reply);
      case Record =>
      case Refresh(phase) =>
      case Attach(attempt, native) => AttachKeeps(m, attempt, native);
      case Crash =>
    }
  }

  // ---------------------------------------------------------------- theorems over every run

  /** Brain is asked only about the attempt and the bytes the durable row already names. */
  lemma {:induction false} DurableBeforeAsked(actions: seq<Action>, reply: Reply)
    ensures var m := Exec(actions);
      var m' := Apply(m, Observe(reply));
      m'.asks != m.asks ==>
        m.row.Some? && m'.row == m.row && m'.asks == m.asks + [Asked(m.row.value.attempt, m.row.value.source)]
  {
    InvHolds(actions);
  }

  /** Every retry of an attempt with an unchanged input sends the same bytes. */
  lemma {:induction false} RetriesRepeatTheirBytes(actions: seq<Action>, i: nat, j: nat)
    requires i < |Exec(actions).asks| && j < |Exec(actions).asks|
    requires Exec(actions).asks[i].attempt == Exec(actions).asks[j].attempt
    requires Exec(actions).asks[i].source.input == Exec(actions).asks[j].source.input
    ensures Exec(actions).asks[i] == Exec(actions).asks[j]
  {
    InvHolds(actions);
  }

  /** An attempt moves on only by a save, by one, and for a stated reason. */
  lemma {:induction false} AttemptMovesForAReason(actions: seq<Action>, action: Action)
    requires Exec(actions).row.Some?
    ensures var m := Exec(actions);
      var m' := Apply(m, action);
      m'.row.Some?
      && (m'.row.value.attempt == m.row.value.attempt
          || (action.Save? && m'.row.value.attempt == m.row.value.attempt + 1
              && MayAdvance(m.row.value, m.brain, m'.row.value.source.input)))
  {
    InvHolds(actions);
  }

  // ---------------------------------------------------------------- from any reachable state

  ghost predicate Reachable(m: Machine) {
    exists actions :: Exec(actions) == m
  }

  lemma Reaches(m: Machine, action: Action) returns (m': Machine)
    requires Reachable(m)
    ensures Reachable(m') && m' == Apply(m, action)
  {
    var actions :| Exec(actions) == m;
    ExecStep(actions, action);
    m' := Apply(m, action);
  }

  lemma ReachableFits(m: Machine)
    requires Reachable(m)
    ensures Inv(m)
  {
    var actions :| Exec(actions) == m;
    InvHolds(actions);
  }

  function Run(m: Machine, more: seq<Action>): Machine {
    if more == [] then m else Apply(Run(m, more[..|more| - 1]), more[|more| - 1])
  }

  lemma {:induction false} RunReaches(m: Machine, more: seq<Action>)
    requires Reachable(m)
    ensures Reachable(Run(m, more))
  {
    if more != [] {
      RunReaches(m, more[..|more| - 1]);
      var _ := Reaches(Run(m, more[..|more| - 1]), more[|more| - 1]);
    }
  }

  ghost predicate RowStays(m: Machine, m': Machine) {
    m.row.Some? ==> m'.row.Some? && m.row.value.attempt <= m'.row.value.attempt
  }

  /** Whatever happens, the attempt of the durable row never falls. */
  lemma {:induction false} AttemptsNeverFall(m: Machine, more: seq<Action>)
    requires Reachable(m)
    ensures RowStays(m, Run(m, more))
  {
    if more != [] {
      var before := Run(m, more[..|more| - 1]);
      AttemptsNeverFall(m, more[..|more| - 1]);
      RunReaches(m, more[..|more| - 1]);
      if before.row.Some? {
        var actions :| Exec(actions) == before;
        AttemptMovesForAReason(actions, more[|more| - 1]);
      }
    }
  }

  predicate Closed(m: Machine) {
    m.row.Some? && (m.row.value.state.Suppressed? || m.row.value.native.Some?)
  }

  /** The same keys bound to the same bytes and receipts; only conversations may have begun. */
  ghost predicate SameBindings(brain: Brain, brain': Brain) {
    && brain'.bound.Keys == brain.bound.Keys && brain'.lost == brain.lost
    && forall a :: a in brain.bound ==> SameReceipt(brain.bound[a], brain'.bound[a])
  }

  predicate SameReceipt(r: Receipt, r': Receipt) {
    r' == r || (r.native.None? && r'.native.Some? && r' == r.(native := r'.native))
  }

  ghost predicate StaysClosed(m: Machine, m': Machine) {
    && Closed(m) && Closed(m') && m'.asks == m.asks && SameBindings(m.brain, m'.brain)
    && m'.row.value.native == m.row.value.native && m'.row.value.attempt == m.row.value.attempt
  }

  lemma ClosedStaysClosed(m: Machine, action: Action)
    requires Inv(m) && Closed(m)
    ensures StaysClosed(m, Apply(m, action))
  {
  }

  /** A window with a native conversation, or a suppressed one, is never observed again. */
  lemma {:induction false} ClosedIsNeverAsked(m: Machine, more: seq<Action>)
    requires Reachable(m) && Closed(m)
    ensures StaysClosed(m, Run(m, more))
  {
    if more != [] {
      ClosedIsNeverAsked(m, more[..|more| - 1]);
      RunReaches(m, more[..|more| - 1]);
      ReachableFits(Run(m, more[..|more| - 1]));
      ClosedStaysClosed(Run(m, more[..|more| - 1]), more[|more| - 1]);
    }
  }

  /** When two attempts are bound, the input changed between their submissions, or the answer
      to the first was lost, or the first was left: its receipt was on record without a native
      conversation when a submission moved on. */
  lemma FormsAgainOnlyWhenChanged(m: Machine, i: nat, j: nat)
    requires Reachable(m) && i < j && i in m.brain.bound && j in m.brain.bound
    ensures i in m.brain.lost || i in m.left
            || ChangedBetween(m.requests, m.brain.bound[i].source.input, m.brain.bound[i].request, m.brain.bound[j].request)
  {
    ReachableFits(m);
  }

  predicate Unchanged(m: Machine) {
    forall k :: 0 <= k < |m.requests| ==> m.requests[k] == m.requests[0]
  }

  /** A window submitted any number of times, unchanged, forms at most once: two attempts with
      a native conversation need one that was lost or left before its conversation was read. */
  lemma UnchangedWindowFormsOnce(m: Machine, i: nat, j: nat)
    requires Reachable(m) && Unchanged(m)
    requires HasConversation(m.brain, i) && HasConversation(m.brain, j) && i != j
    ensures var first := if i < j then i else j; first in m.brain.lost || first in m.left
  {
    ReachableFits(m);
    FormsAgainOnlyWhenChanged(m, if i < j then i else j, if i < j then j else i);
  }

  /** While the input is unchanged and no answer was lost, the host is past an attempt Brain
      bound exactly when it left that attempt. */
  lemma MovesPastExactly(m: Machine, i: nat)
    requires Reachable(m) && Unchanged(m) && i in m.brain.bound && i !in m.brain.lost
    ensures m.row.Some? && (i < m.row.value.attempt <==> i in m.left)
  {
    ReachableFits(m);
  }

  /** The step that leaves a formed window: resubmitted as it was, it gets a new attempt
      exactly when the row does not know of its conversation, and either records a receipt
      without one or an error that hid it. */
  lemma FormedIsLeftExactly(m: Machine, request: Request)
    requires Reachable(m) && m.pc.Idle? && m.row.Some? && !m.row.value.state.Suppressed?
    requires HasConversation(m.brain, m.row.value.attempt)
    requires m.brain.bound[m.row.value.attempt].source.input == request.input
    ensures var e, m' := m.row.value, Apply(Apply(m, Begin(request)), Save);
      && m'.row.Some?
      && (m'.row.value.attempt > e.attempt <==>
            e.native.None? && (e.receipt.Some? || (e.state.Failed? && e.attempt in m.brain.lost)))
  {
    ReachableFits(m);
  }

  ghost predicate FormedTwice(m: Machine, input: Input) {
    && (forall k :: 0 <= k < |m.requests| ==> m.requests[k] == input)
    && HasConversation(m.brain, 0) && HasConversation(m.brain, 1)
  }

  lemma LostAnswerLooksRejected(request: Request) returns (m: Machine)
    ensures Reachable(m) && m.pc.Idle? && m.requests == [request.input]
    ensures HasConversation(m.brain, 0) && 1 !in m.brain.bound
    ensures m.row.Some? && m.row.value.state.Failed? && m.row.value.attempt == 0 && m.row.value.native.None?
  {
    assert Exec([]) == Start;
    m := Reaches(Start, Begin(request));
    m := Reaches(m, Observe(Lose(7, Some(70))));
    m := Reaches(m, Record);
  }

  lemma Resubmits(start: Machine, request: Request) returns (m: Machine)
    requires Reachable(start) && start.pc.Idle? && start.requests == [request.input]
    requires HasConversation(start.brain, 0) && 1 !in start.brain.bound
    requires start.row.Some? && start.row.value.attempt == 0 && start.row.value.native.None?
    requires !start.row.value.state.Suppressed? && (start.row.value.state.Failed? || start.row.value.receipt.Some?)
    ensures Reachable(m) && FormedTwice(m, request.input) && m.brain.lost == start.brain.lost
  {
    m := Reaches(start, Begin(request));
    m := Reaches(m, Save);
    m := Reaches(m, Observe(Answer(8, Some(80), Recorded)));
  }

  /** `lost` is needed: an error reported after Brain bound the key is recorded as a
      rejection, and the unchanged window then forms a second time. */
  lemma LostAnswerFormsTwice(input: Input)
    ensures exists m :: Reachable(m) && FormedTwice(m, input)
  {
    var request := Request(input, None, 0);
    var m := LostAnswerLooksRejected(request);
    m := Resubmits(m, request);
  }

  /** `left` is needed too: a conversation that Brain starts after its receipt was recorded,
      and that no refresh reads before the next submission, is formed a second time although
      no answer was lost. */
  lemma LateConversationFormsTwice(input: Input)
    ensures exists m :: Reachable(m) && FormedTwice(m, input) && m.brain.lost == {}
  {
    var request := Request(input, None, 0);
    assert Exec([]) == Start;
    var m := Reaches(Start, Begin(request));
    m := Reaches(m, Observe(Answer(7, None, Recorded)));
    m := Reaches(m, Record);
    m := Reaches(m, Attach(0, 70));
    m := Resubmits(m, request);
  }

  /** A replaced attempt is unbound, so the loop meets at most one conflict. */
  lemma ReplacedNeverConflicts(m: Machine, reply: Reply)
    requires Reachable(m) && m.pc.Saved? && m.pc.replaced
    ensures !Ask(m.brain, m.pc.sub.attempt, m.pc.sub.source, |m.requests|, reply).1.Conflicted?
  {
    ReachableFits(m);
  }

  // ---------------------------------------------------------------- what each reply leaves

  /** The state and the stage a phase stands for. */
  predicate InPhase(row: Row, phase: Phase) {
    match phase
    case Recorded => row.state.Accepted? && row.stage.None?
    case Processed => row.state.Completed? && row.stage.None?
    case Available => row.state.Completed? && row.stage.None?
    case ProcessingFailed =>
      row.state.Failed? && row.stage == Some(if row.native.Some? then NativeFailed else SubmissionRejected)
  }

  /** What the row says of a window Brain took in. */
  predicate TakenIn(row: Row, reference: nat, native: Option<nat>, phase: Phase) {
    row.receipt == Some(reference) && row.native == native && InPhase(row, phase)
  }

  predicate Rejected(row: Row) {
    row.state.Failed? && row.stage == Some(SubmissionRejected) && row.receipt.None? && row.native.None?
  }

  /** The same attempt and submission, whatever became of it. */
  predicate SameSubmission(a: Row, b: Row) {
    a.attempt == b.attempt && a.submittedAt == b.submittedAt && a.observedAt == b.observedAt && a.source == b.source
  }

  /** What Brain's reply to the saved row leaves once it is recorded: an exclusion closes the
      window and tells Brain nothing; a refusal, lost answer or second conflict is a rejection;
      an answer's own receipt, or the one bound before, is in the row with its progress; and
      the first conflict asks for a further attempt. */
  lemma ReplyIsRecorded(m: Machine, reply: Reply)
    requires Reachable(m) && m.pc.Saved?
    ensures m.row.Some?
    ensures var was, m' := m.row.value, Apply(Apply(m, Observe(reply)), Record);
      var bound := was.attempt in m.brain.bound;
      m'.row.Some? && SameSubmission(m'.row.value, was)
      && match reply
         case Exclude => m'.pc.Idle? && m'.row.value.state.Suppressed? && Closed(m') && m'.brain == m.brain
         case Refuse =>
           m'.pc.Idle? && Rejected(m'.row.value) && m'.brain.bound == m.brain.bound
           && m'.brain.lost == m.brain.lost + if bound then {was.attempt} else {}
         case Lose(_, _) => m'.pc.Idle? && Rejected(m'.row.value) && was.attempt in m'.brain.bound && was.attempt in m'.brain.lost
         case Answer(reference, native, phase) =>
           if !bound then
             m'.pc.Idle? && TakenIn(m'.row.value, reference, native, phase)
             && m'.brain.bound == m.brain.bound[was.attempt := Receipt(was.source, reference, native, |m.requests| - 1)]
           else if m.brain.bound[was.attempt].source == was.source then
             var receipt := m.brain.bound[was.attempt];
             m'.pc.Idle? && TakenIn(m'.row.value, receipt.reference, receipt.native, phase) && m'.brain == m.brain
           else
             m'.brain == m.brain && m'.row == m.row && m'.pc.Unsaved? && m'.pc.sub.attempt == was.attempt + 1
  {
    ReachableFits(m);
  }

  /** What is saved for a submission: the input and no receipt; the times of the first
      submission of its attempt, which for a new attempt is this one. */
  lemma SubmissionIsSaved(m: Machine, request: Request)
    requires Reachable(m) && m.pc.Idle? && !Closed(m)
    ensures var m' := Apply(Apply(m, Begin(request)), Save);
      && m'.pc.Saved? && m'.row.Some? && m'.row == Some(m'.pc.sub)
      && (var row := m'.row.value;
          && row.state.Pending? && row.receipt.None? && row.native.None? && row.stage.None?
          && row.source == Source(request.input, row.observedAt)
          && (if m.row.Some? && row.attempt == m.row.value.attempt
              then row.submittedAt == m.row.value.submittedAt && row.observedAt == m.row.value.observedAt
              else row.submittedAt == request.submittedAt && IsTimeOf(row.observedAt, request))
          && (m.row.None? ==> row.attempt == 0)
          && (m.row.Some? ==>
                (row.attempt == m.row.value.attempt + 1 <==> m.row.value.state.Failed? || m.row.value.receipt.Some?)))
  {
    ReachableFits(m);
  }

  predicate IsTimeOf(stamp: Stamp, request: Request) {
    if request.timestamp.Some? then stamp == Given(request.timestamp.value) else stamp == SubmittedAt(request.submittedAt)
  }

  /** A conflict's further attempt is this submission's, with its input and its times. */
  lemma ReplacementIsSaved(m: Machine, reply: Reply)
    requires Reachable(m) && m.pc.Saved? && Apply(m, Observe(reply)).pc.Unsaved?
    ensures m.row.Some?
    ensures var m' := Apply(Apply(m, Observe(reply)), Save);
      var row, request := m'.pc.sub, m.pc.request;
      && m'.pc.Saved? && m'.row == Some(row) && m'.brain == m.brain
      && row.attempt == m.row.value.attempt + 1 && row.attempt !in m'.brain.bound
      && row.state.Pending? && row.receipt.None? && row.native.None?
      && row.source == Source(request.input, row.observedAt)
      && row.submittedAt == request.submittedAt && IsTimeOf(row.observedAt, request)
  {
    ReachableFits(m);
  }

  /** An attempt is left exactly when another is saved over a row that holds its receipt. */
  lemma LeavesExactly(m: Machine, action: Action)
    requires Reachable(m)
    ensures var m' := Apply(m, action);
      m'.left == m.left + if action.Save? && m.row.Some? && m.row.value.receipt.Some? && m'.row.value.attempt > m.row.value.attempt
                          then {m.row.value.attempt} else {}
  {
    ReachableFits(m);
  }

  /** A refresh reads the phase, and the conversation if there is one, into an open row with a
      receipt; every other row it leaves as it is. */
  lemma RefreshReadsProgress(m: Machine, phase: Phase)
    requires Reachable(m) && m.row.Some?
    ensures var was, m' := m.row.value, Apply(m, Refresh(phase));
      var open := !was.state.Completed? && !was.state.Failed? && !was.state.Suppressed?;
      && m'.row.Some? && m'.brain == m.brain && m'.asks == m.asks
      && SameSubmission(m'.row.value, was) && m'.row.value.receipt == was.receipt
      && if m.pc.Idle? && open && was.receipt.Some? then
           InPhase(m'.row.value, phase) && was.attempt in m.brain.bound
           && m'.row.value.native == m.brain.bound[was.attempt].native
         else m'.row == m.row
  {
    ReachableFits(m);
  }

  // ---------------------------------------------------------------- the host's code

  /** What a submission that was not closed becomes, by what Brain replied; `before` is Brain
      as it was when the submission began. */
  ghost predicate BecameAsReplied(before: Brain, row: Row, reply: bool -> Reply) {
    && (reply(false).Exclude? ==> row.state.Suppressed?)
    && (reply(false).Refuse? || reply(false).Lose? ==> Rejected(row))
    && (row.attempt !in before.bound && reply(false) == reply(true) && reply(false).Answer? ==>
          TakenIn(row, reply(false).reference, reply(false).native, reply(false).phase))
    && (row.attempt in before.bound && reply(false).Answer? && before.bound[row.attempt].source == row.source ==>
          TakenIn(row, before.bound[row.attempt].reference, before.bound[row.attempt].native, reply(false).phase))
  }

  lemma FirstReplySettles(before: Brain, first: Row, request: nat, reply: bool -> Reply)
    requires first.receipt.None? && first.native.None?
    requires !Ask(before, first.attempt, first.source, request, reply(false)).1.Conflicted?
    ensures BecameAsReplied(before, Settle(first, Ask(before, first.attempt, first.source, request, reply(false)).1), reply)
  {
  }

  lemma SecondReplySettles(before: Brain, first: Row, sub: Row, request: nat, reply: bool -> Reply)
    requires Ask(before, first.attempt, first.source, request, reply(false)).1.Conflicted?
    requires sub.receipt.None? && sub.native.None? && sub.attempt !in before.bound
    ensures BecameAsReplied(before, Settle(sub, Ask(before, sub.attempt, sub.source, request, reply(true)).1), reply)
  {
  }

  lemma ConflictTellsNothing(brain: Brain, attempt: nat, source: Source, request: nat, reply: Reply)
    requires Ask(brain, attempt, source, request, reply).1.Conflicted?
    ensures Ask(brain, attempt, source, request, reply).0 == brain
  {
  }

  /** The effects of observing `sub`, whose row is already durable when `created`. */
  function Observing(brain: Brain, sub: Row, created: bool, request: nat, reply: bool -> Reply): seq<Action> {
    (if created then [] else [Save]) + [Observe(reply(false))]
    + (if Ask(brain, sub.attempt, sub.source, request, reply(false)).1.Conflicted? then [Save, Observe(reply(true))] else [])
    + [Record]
  }

  lemma {:induction false} ReplacementIsUnbound(actions: seq<Action>)
    requires Exec(actions).pc.Unsaved? && Exec(actions).pc.replaced
    ensures Exec(actions).pc.sub.attempt !in Exec(actions).brain.bound
  {
    InvHolds(actions);
  }

  lemma ReplaceIsOpen(row: Row, request: Request)
    ensures Replace(row, request).receipt == row.receipt && Replace(row, request).native == row.native
  {
  }

  /** The effects of one uninterrupted submission, in order. */
  function Submission(m: Machine, request: Request, reply: bool -> Reply, phase: Phase): seq<Action> {
    if m.row.None? then
      [Begin(request)] + Observing(m.brain, NewRow(request), true, |m.requests|, reply)
    else if m.row.value.state.Suppressed? then [Begin(request)]
    else if m.row.value.native.Some? then [Begin(request), Refresh(phase)]
    else [Begin(request)] + Observing(m.brain, Resubmit(m.row.value, request), false, |m.requests|, reply)
  }

  class WindowJournal {
    var row: Option<Row>
    var brain: Brain
    var submissions: nat
    ghost var machine: Machine
    ghost var log: seq<Action>

    ghost predicate Valid()
      reads this
    {
      machine == Exec(log) && machine.row == row && machine.brain == brain && |machine.requests| == submissions
    }

    constructor ()
      ensures Valid() && machine == Start && log == []
    {
      row, brain, submissions := None, Brain(map[], {}), 0;
      machine, log := Start, [];
    }

    ghost method Note(action: Action)
      requires machine == Exec(log)
      modifies this`machine, this`log
      ensures machine == Apply(old(machine), action) && machine == Exec(log)
      ensures log == old(log) + [action]
    {
      ExecStep(log, action);
      machine, log := Apply(machine, action), log + [action];
    }

    /** One look at how far Brain got; it never asks Brain to form anything. */
    method RefreshFormation(phase: Phase) returns (result: Option<Row>)
      requires Valid() && machine.pc.Idle?
      modifies this
      ensures Valid() && machine.pc.Idle?
      ensures log == old(log) + [Refresh(phase)]
      ensures result.Some? ==> result == row
      ensures result.None? <==> row.None? || (!Terminal(row.value) && row.value.receipt.None?)
      ensures old(Closed(machine)) ==> Closed(machine)
      ensures row.Some? && !old(Terminal(row.value)) && old(row.value).receipt.Some? ==>
                InPhase(row.value, phase) && SameSubmission(row.value, old(row.value)) && row.value.receipt == old(row.value).receipt
    {
      InvHolds(log);
      Note(Refresh(phase));
      if row.None? {
        return None;
      }
      if !Terminal(row.value) {
        if row.value.receipt.None? {
          return None;
        }
        row := Some(Refreshed(row.value, brain, phase));
      }
      return row;
    }

    /** Submits a window: `reply` is what Brain does when it is asked, before and after a
        replacement. */
    method SubmitFormation(request: Request, reply: bool -> Reply, phase: Phase) returns (result: Result<Row, Row>)
      requires Valid() && machine.pc.Idle?
      modifies this
      ensures Valid() && machine.pc.Idle? && row.Some?
      ensures log == old(log) + Submission(old(machine), request, reply, phase)
      ensures result == if Closed(machine) then Ok(row.value) else Err(row.value)
      ensures !old(Closed(machine)) ==> BecameAsReplied(old(brain), row.value, reply)
    {
      hide Exec;
      var submission := NewRow(request);
      var created := row.None?;
      Note(Begin(request));
      submissions := submissions + 1;
      if created {
        row := Some(submission);
      } else {
        var existing := row.value;
        if existing.state.Suppressed? {
          return Ok(existing);
        }
        if existing.native.Some? {
          var _ := RefreshFormation(phase);
          return Ok(row.value);
        }
        submission := Resubmit(existing, request);
      }
      submission := ObserveWindow(submission, created, request, reply);
      result := if submission.state.Suppressed? || submission.native.Some? then Ok(submission) else Err(submission);
    }

    /** The loop: save the attempt, ask Brain, and once, on a conflict, replace it. */
    method ObserveWindow(first: Row, created: bool, request: Request, reply: bool -> Reply) returns (submission: Row)
      requires Valid() && row.Some? && submissions > 0
      requires machine.pc == if created then Saved(first, request, false) else Unsaved(first, request, false)
      requires first.receipt.None? && first.native.None?
      modifies this
      ensures Valid() && machine.pc.Idle? && row == Some(submission)
      ensures BecameAsReplied(old(brain), submission, reply)
      ensures log == old(log) + Observing(old(brain), first, created, old(submissions) - 1, reply)
    {
      hide Exec, Settle, Replace, Ask, Left, Attached, Refreshed, Resubmit, NewRow, Terminal, BecameAsReplied;
      submission := first;
      var save := !created;
      var replaced := false;
      var outcome;
      ghost var asked := brain;
      ghost var conflicts := Ask(brain, first.attempt, first.source, submissions - 1, reply(false)).1.Conflicted?;
      while true
        invariant Valid() && row.Some? && submissions == old(submissions)
        invariant machine.pc == if save then Unsaved(submission, request, replaced) else Saved(submission, request, replaced)
        invariant replaced ==> save && conflicts && brain == old(brain)
        invariant submission.receipt.None? && submission.native.None?
        invariant replaced ==> submission.attempt !in brain.bound
        invariant !replaced ==> save == !created && brain == old(brain) && submission == first
        invariant log == old(log) + if !replaced then [] else if created then [Observe(reply(false))] else [Save, Observe(reply(false))]
        decreases !replaced
      {
        if save {
          row := Some(submission);
          Note(Save);
        }
        asked := brain;
        var answer := Ask(brain, submission.attempt, submission.source, submissions - 1, reply(replaced));
        brain, outcome := answer.0, answer.1;
        Note(Observe(reply(replaced)));
        if outcome.Conflicted? && !replaced {
          replaced := true;
          ConflictTellsNothing(asked, submission.attempt, submission.source, submissions - 1, reply(false));
          ReplaceIsOpen(submission, request);
          ReplacementIsUnbound(log);
          submission := Replace(submission, request);
          save := true;
        } else {
          break;
        }
      }
      if replaced {
        SecondReplySettles(asked, first, submission, submissions - 1, reply);
      } else {
        FirstReplySettles(asked, first, submissions - 1, reply);
      }
      submission := Settle(submission, outcome);
      row := Some(submission);
      Note(Record);
    }
  }
}
