/** The evaluation host's request ledger, and the runs that dispatched requests work on. */
module RequestLedger {
  import opened Wrappers
  import Text

  const MAX_HOST_REQUESTS := 100_000
  const MAX_REQUESTS := 10_000
  const MAX_RESPONSE_BYTES := 32 * 1024 * 1024
  const MAX_RUNS := 1024
  const MAX_ACTIVE_RUNS := 8
  const MAX_ID_BYTES := 256

  datatype RunKey = RunKey(protocol: string, run: string)
  datatype Key = Key(run: RunKey, request: string)
  datatype Operation = Describe | Reset | Close | Other(name: string)

  /** A request by its whole content: `body` is everything its key and operation leave out. */
  datatype Request = Request(key: Key, operation: Operation, wellFormed: bool, freshMode: bool, body: string)

  datatype Response =
    | Fine(body: string)
    | Refused
    | Exhausted
    | CleanupFailed
    | Failed
    | Panicked

  datatype Reply = Invalid | Descriptor(protocol: string) | Conflict | HostFull | Answered(response: Response)

  datatype Cell = Empty | Running(task: nat) | Ready(response: Response)
  datatype Entry = Entry(request: Request, cell: Cell)

  datatype Run = Run(cancelled: bool, closed: bool, byReset: bool, requests: nat, bytes: nat, holder: Option<nat>)

  datatype Pc =
    | Waiting(request: Request)
    | Looking(request: Request)
    | Signalling(request: Request)
    | Locking(request: Request)
    | Holding(request: Request)
    | Operating(request: Request)
    | Recovering(request: Request)

  datatype Event =
    | Bound(request: Request)
    | Executed(request: Request)
    | Operated(request: Request)
    | Served(request: Request, fine: bool)
    | Ended(run: RunKey)
    | Replied(request: Request, reply: Reply)

  /** What one step is given: whether Brain is created, the operation succeeds or Brain closes,
      and the response and its size. */
  datatype Given = Given(created: bool, fine: bool, closes: bool, body: string, bytes: nat)

  datatype Machine = Machine(
    ledger: map<Key, Entry>, runs: map<RunKey, Run>, tasks: map<nat, Pc>, down: bool, events: seq<Event>)

  /** Any number of dispatched requests, each a task of its own, share a ledger, a table of
      runs and one lock per run. Every action is one atomic step of one task. A dispatched
      request is never cancelled: it answers, or it panics and is recovered. `Served(run, _,
      false)` and `Ended(run)` are the ways a run ends. */
  datatype Action =
    | Arrive(p: nat, request: Request)
    | Next(p: nat, given: Given)
    | Panic(p: nat)
    | Reap(run: RunKey, closes: bool)
    | ShutDown

  const Start := Machine(map[], map[], map[], false, [])

  predicate ValidEnvelope(r: Request) {
    && r.wellFormed
    && r.key.run.protocol in {"mib-agent/0.1", "mib-memory-backend/0.1"}
    && 1 <= Text.Utf8Size(r.key.run.run) <= MAX_ID_BYTES && 1 <= Text.Utf8Size(r.key.request) <= MAX_ID_BYTES
  }

  /** The reply given before the ledger is touched. */
  function Immediate(r: Request): Option<Reply> {
    if !ValidEnvelope(r) then Some(Invalid)
    else if r.operation.Describe? then Some(Descriptor(r.key.run.protocol))
    else None
  }

  function Emit(m: Machine, event: Event): Machine { m.(events := m.events + [event]) }

  function At(m: Machine, p: nat, pc: Pc): Machine { m.(tasks := m.tasks[p := pc]) }

  function WithRun(m: Machine, key: RunKey, run: Run): Machine { m.(runs := m.runs[key := run]) }

  function Bind(m: Machine, p: nat, r: Request): Machine {
    Machine(m.ledger[r.key := Entry(r, Empty)], m.runs, m.tasks[p := Waiting(r)], m.down, m.events + [Bound(r)])
  }

  function Admit(m: Machine, p: nat, r: Request): Machine {
    if Immediate(r).Some? then Emit(m, Replied(r, Immediate(r).value))
    else if r.key in m.ledger then
      if m.ledger[r.key].request != r then Emit(m, Replied(r, Conflict)) else At(m, p, Waiting(r))
    else if |m.ledger| >= MAX_HOST_REQUESTS && !r.operation.Close? then Emit(m, Replied(r, HostFull))
    else Bind(m, p, r)
  }

  /** The response reaches the ledger's cell, where every waiter finds it. */
  function Deliver(m: Machine, p: nat, r: Request, response: Response): Machine {
    At(m.(ledger := m.ledger[r.key := Entry(r, Ready(response))]), p, Waiting(r))
  }

  function OpenRuns(runs: map<RunKey, Run>): set<RunKey> { set k | k in runs && !runs[k].closed }

  predicate CreatesRun(m: Machine, r: Request, created: bool) {
    && (r.operation.Reset? || r.operation.Close?)
    && |m.runs| < MAX_RUNS
    && (r.operation.Close? || |OpenRuns(m.runs)| < MAX_ACTIVE_RUNS)
    && r.freshMode && created
  }

  function FindRun(m: Machine, p: nat, r: Request, created: bool): Machine {
    var pc := if r.operation.Close? then Signalling(r) else Locking(r);
    if m.down then Deliver(m, p, r, Refused)
    else if r.key.run in m.runs then At(m, p, pc)
    else if CreatesRun(m, r, created) then
      At(WithRun(m, r.key.run, Run(false, false, r.operation.Reset?, 0, 0, None)), p, pc)
    else Deliver(m, p, r, Refused)
  }

  function CloseBrain(run: Run, closes: bool): Run { run.(cancelled := true, closed := run.closed || closes) }

  function EndRun(m: Machine, key: RunKey, closes: bool): Machine {
    if key in m.runs then Emit(WithRun(m, key, CloseBrain(m.runs[key], closes)), Ended(key)) else m
  }

  predicate Spent(run: Run) { run.requests >= MAX_REQUESTS || run.bytes >= MAX_RESPONSE_BYTES }

  /** The end of a request under the lock: a failure ends the run, and either is counted. */
  function Settle(m: Machine, p: nat, r: Request, fine: bool, given: Given): Machine
    requires r.key.run in m.runs
  {
    var run := m.runs[r.key.run];
    var run' := if fine then run else CloseBrain(run, given.closes);
    var counted := run'.(requests := run.requests + 1, bytes := run.bytes + given.bytes, holder := None);
    Deliver(Emit(WithRun(m, r.key.run, counted), Served(r, fine)), p, r, if fine then Fine(given.body) else Failed)
  }

  function Exhaust(m: Machine, p: nat, r: Request, given: Given): Machine
    requires r.key.run in m.runs
  {
    var run := CloseBrain(m.runs[r.key.run], given.closes);
    Deliver(Emit(WithRun(m, r.key.run, run.(holder := None)), Ended(r.key.run)), p, r, Exhausted)
  }

  function Turn(m: Machine, p: nat, r: Request, given: Given): Machine
    requires r.key.run in m.runs
  {
    var run := m.runs[r.key.run];
    if r.operation.Close? then Settle(m, p, r, true, given)
    else if Spent(run) then Exhaust(m, p, r, given)
    else if run.cancelled || (r.operation.Reset? && run.requests > 0) then Settle(m, p, r, false, given)
    else At(Emit(m, Operated(r)), p, Operating(r))
  }

  function Step(m: Machine, p: nat, given: Given): Machine
    requires p in m.tasks
  {
    var r := m.tasks[p].request;
    if m.tasks[p].Waiting? then
      if r.key !in m.ledger then m
      else
        match m.ledger[r.key].cell
        case Empty =>
          At(Emit(m.(ledger := m.ledger[r.key := Entry(r, Running(p))]), Executed(r)), p, Looking(r))
        case Running(_) => m
        case Ready(response) => Emit(m.(tasks := m.tasks - {p}), Replied(r, Answered(response)))
    else if m.tasks[p].Looking? then FindRun(m, p, r, given.created)
    else if m.tasks[p].Recovering? then Deliver(EndRun(m, r.key.run, given.closes), p, r, Panicked)
    else if r.key.run !in m.runs then m
    else
      var run := m.runs[r.key.run];
      if m.tasks[p].Signalling? then
        var m' := EndRun(m, r.key.run, given.closes);
        if given.closes then At(m', p, Locking(r)) else Deliver(m', p, r, CleanupFailed)
      else if m.tasks[p].Locking? then
        if run.holder.Some? then m else At(WithRun(m, r.key.run, run.(holder := Some(p))), p, Holding(r))
      else if m.tasks[p].Holding? then Turn(m, p, r, given)
      else Settle(m, p, r, given.fine && !run.cancelled, given)
  }

  /** A panic unwinds its task, letting go of its run's lock, before the run is ended. */
  function Unwind(m: Machine, p: nat): Machine
    requires p in m.tasks
  {
    var r := m.tasks[p].request;
    var m' := At(m, p, Recovering(r));
    if r.key.run in m.runs && m.runs[r.key.run].holder == Some(p) then
      WithRun(m', r.key.run, m.runs[r.key.run].(holder := None))
    else m'
  }

  function Apply(m: Machine, action: Action): Machine {
    match action
    case Arrive(p, r) => if p in m.tasks then m else Admit(m, p, r)
    case Next(p, given) => if p in m.tasks then Step(m, p, given) else m
    case Panic(p) => if p in m.tasks && !m.tasks[p].Waiting? && !m.tasks[p].Recovering? then Unwind(m, p) else m
    case Reap(run, closes) => if run in m.runs && !m.runs[run].closed then EndRun(m, run, closes) else m
    case ShutDown => m.(down := true)
  }

  function Exec(actions: seq<Action>): Machine {
    if actions == [] then Start
    else Apply(Exec(actions[..|actions| - 1]), actions[|actions| - 1])
  }

  // ---------------------------------------------------------------- what every run keeps

  predicate Inner(pc: Pc) { !pc.Waiting? }

  predicate UnderLock(pc: Pc) { pc.Holding? || pc.Operating? }

  ghost predicate EntryOk(m: Machine, k: Key) {
    k in m.ledger ==> m.ledger[k].request.key == k && Immediate(m.ledger[k].request).None?
  }

  /** A task's request is its entry's; past waiting it is the one task working on the entry,
      and past the lock it holds its run's lock. */
  ghost predicate TaskOk(m: Machine, p: nat) {
    p in m.tasks ==>
      var pc, r := m.tasks[p], m.tasks[p].request;
      && r.key in m.ledger && m.ledger[r.key].request == r
      && (Inner(pc) ==> m.ledger[r.key].cell == Running(p))
      && (UnderLock(pc) ==> r.key.run in m.runs && m.runs[r.key.run].holder == Some(p))
      && (pc.Operating? && r.operation.Reset? ==> m.runs[r.key.run].requests == 0)
  }

  ghost predicate Owned(m: Machine) {
    (forall k :: EntryOk(m, k)) && (forall p :: TaskOk(m, p))
  }

  /** What an event says of the ledger for ever after. */
  ghost predicate Recorded(m: Machine, e: Event) {
    match e
    case Bound(r) => r.key in m.ledger && m.ledger[r.key].request == r
    case Executed(r) => r.key in m.ledger && m.ledger[r.key].request == r && !m.ledger[r.key].cell.Empty?
    case Replied(r, reply) =>
      if Immediate(r).Some? then reply == Immediate(r).value
      else
        (match reply
         case Conflict => r.key in m.ledger && m.ledger[r.key].request != r
         case HostFull => !r.operation.Close? && |m.ledger| >= MAX_HOST_REQUESTS
                          && (r.key in m.ledger ==> m.ledger[r.key].request.operation.Close?)
         case Answered(response) => r.key in m.ledger && m.ledger[r.key] == Entry(r, Ready(response))
         case _ => false)
    case Ended(run) => run in m.runs && m.runs[run].cancelled
    case Served(r, fine) => r.key.run in m.runs && m.runs[r.key.run].requests > 0 && (!fine ==> m.runs[r.key.run].cancelled)
    case Operated(r) => r.key.run in m.runs
  }

  predicate Ends(e: Event, run: RunKey) {
    e == Ended(run) || (e.Served? && !e.fine && e.request.key.run == run)
  }

  /** What may not follow what. */
  predicate MayFollow(e: Event, later: Event) {
    match later
    case Executed(r) => !(e.Executed? && e.request.key == r.key)
    case Operated(r) => !Ends(e, r.key.run)
    case Replied(r, reply) => reply.HostFull? ==> !(e.Bound? && e.request.key == r.key)
    case Served(r, fine) => fine && r.operation.Reset? ==> !(e.Served? && e.request.key.run == r.key.run)
    case _ => true
  }

  ghost predicate Ordered(events: seq<Event>) {
    forall i, j :: 0 <= i < j < |events| ==> MayFollow(events[i], events[j])
  }

  ghost predicate Told(m: Machine) {
    (forall i :: 0 <= i < |m.events| ==> Recorded(m, m.events[i])) && Ordered(m.events)
  }

  ghost predicate Inv(m: Machine) { Owned(m) && Told(m) }

  ghost predicate EntryGrows(m: Machine, m': Machine, k: Key) {
    if k in m.ledger then
      && k in m'.ledger && m'.ledger[k].request == m.ledger[k].request
      && (m.ledger[k].cell.Ready? ==> m'.ledger[k] == m.ledger[k])
      && (!m.ledger[k].cell.Empty? ==> !m'.ledger[k].cell.Empty?)
    else
      k in m'.ledger && |m.ledger| >= MAX_HOST_REQUESTS ==> m'.ledger[k].request.operation.Close?
  }

  ghost predicate RunGrows(m: Machine, m': Machine, run: RunKey) {
    run in m.runs ==>
      && run in m'.runs && m.runs[run].requests <= m'.runs[run].requests
      && (m.runs[run].cancelled ==> m'.runs[run].cancelled)
  }

  /** What a step may do to the ledger and the runs without unsaying an event. */
  ghost predicate Grows(m: Machine, m': Machine) {
    |m.ledger| <= |m'.ledger| && (forall k :: EntryGrows(m, m', k)) && (forall run :: RunGrows(m, m', run))
  }

  lemma StillRecorded(m: Machine, m': Machine, e: Event)
    requires Grows(m, m') && Recorded(m, e)
    ensures Recorded(m', e)
  {
    assert !e.Ended? ==> EntryGrows(m, m', e.request.key) && RunGrows(m, m', e.request.key.run);
    assert e.Ended? ==> RunGrows(m, m', e.run);
  }

  lemma Tell(m: Machine, m': Machine)
    requires Told(m) && Grows(m, m')
    requires m'.events == m.events
             || (|m'.events| == |m.events| + 1 && m'.events[..|m.events|] == m.events
                 && Recorded(m', m'.events[|m.events|])
                 && forall i :: 0 <= i < |m.events| ==> MayFollow(m.events[i], m'.events[|m.events|]))
    ensures Told(m')
  {
    hide Recorded, Grows, MayFollow;
    forall i | 0 <= i < |m'.events|
      ensures Recorded(m', m'.events[i])
    {
      if i < |m.events| {
        assert m'.events[i] == m.events[i];
        StillRecorded(m, m', m.events[i]);
      }
    }
    forall i, j | 0 <= i < j < |m'.events|
      ensures MayFollow(m'.events[i], m'.events[j])
    {
      assert m'.events[i] == m.events[i];
      assert j < |m.events| ==> m'.events[j] == m.events[j];
    }
  }

  lemma BindOwned(m: Machine, p: nat, r: Request)
    requires Owned(m) && p !in m.tasks && r.key !in m.ledger && Immediate(r).None?
    ensures Owned(Bind(m, p, r))
  {
    hide Immediate;
    var m' := Bind(m, p, r);
    forall k
      ensures EntryOk(m', k)
    {
      assert EntryOk(m, k);
    }
    forall q
      ensures TaskOk(m', q)
    {
      assert TaskOk(m, q);
    }
  }

  lemma BindKeeps(m: Machine, p: nat, r: Request)
    requires Inv(m) && p !in m.tasks && r.key !in m.ledger && Immediate(r).None?
    requires |m.ledger| < MAX_HOST_REQUESTS || r.operation.Close?
    ensures Inv(Bind(m, p, r))
  {
    var m' := Bind(m, p, r);
    BindOwned(m, p, r);
    assert forall k :: EntryGrows(m, m', k);
    hide Owned, EntryGrows, Immediate;
    Tell(m, m');
  }

  lemma AnswerAtOnceKeeps(m: Machine, r: Request, reply: Reply)
    requires Inv(m) && Recorded(m, Replied(r, reply))
    requires reply.HostFull? ==> r.key !in m.ledger
    ensures Inv(Emit(m, Replied(r, reply)))
  {
    var m' := Emit(m, Replied(r, reply));
    assert Owned(m') by {
      assert forall k :: EntryOk(m, k) ==> EntryOk(m', k);
      assert forall p :: TaskOk(m, p) ==> TaskOk(m', p);
    }
    hide Owned;
    forall i | 0 <= i < |m.events|
      ensures MayFollow(m.events[i], m'.events[|m.events|])
    {
      assert Recorded(m, m.events[i]);
    }
    assert Recorded(m', m'.events[|m.events|]);
    Tell(m, m');
  }

  lemma JoinKeeps(m: Machine, p: nat, r: Request)
    requires Inv(m) && p !in m.tasks && r.key in m.ledger && m.ledger[r.key].request == r
    ensures Inv(At(m, p, Waiting(r)))
  {
    var m' := At(m, p, Waiting(r));
    assert forall k :: EntryOk(m, k) ==> EntryOk(m', k);
    assert forall q :: TaskOk(m, q) ==> TaskOk(m', q);
    hide EntryOk, TaskOk;
    Tell(m, m');
  }

  lemma AdmitKeeps(m: Machine, p: nat, r: Request)
    requires Inv(m) && p !in m.tasks
    ensures Inv(Admit(m, p, r))
  {
    hide Inv, Bind;
    if Immediate(r).Some? {
      AnswerAtOnceKeeps(m, r, Immediate(r).value);
    } else if r.key !in m.ledger && (|m.ledger| < MAX_HOST_REQUESTS || r.operation.Close?) {
      BindKeeps(m, p, r);
    } else if r.key !in m.ledger {
      AnswerAtOnceKeeps(m, r, HostFull);
    } else if m.ledger[r.key].request != r {
      AnswerAtOnceKeeps(m, r, Conflict);
    } else {
      JoinKeeps(m, p, r);
    }
  }

  /** A step of a task's own: it may change its own entry, and a run whose lock is free or its
      own. */
  ghost predicate OwnStep(m: Machine, p: nat, m': Machine) {
    && p in m.tasks && m'.ledger.Keys == m.ledger.Keys
    && (forall k :: k in m.ledger && k != m.tasks[p].request.key ==> m'.ledger[k] == m.ledger[k])
    && (forall q :: q != p ==> (q in m'.tasks <==> q in m.tasks) && (q in m.tasks ==> m'.tasks[q] == m.tasks[q]))
    && (forall run :: run in m.runs ==> RunSteps(m, p, m', run))
  }

  ghost predicate RunSteps(m: Machine, p: nat, m': Machine, run: RunKey)
    requires run in m.runs
  {
    && run in m'.runs
    && (m'.runs[run].holder == m.runs[run].holder || m.runs[run].holder in {Some(p), None})
    && (m'.runs[run].requests == m.runs[run].requests || m.runs[run].holder == Some(p))
  }

  lemma OwnStepKeeps(m: Machine, p: nat, m': Machine)
    requires Owned(m) && OwnStep(m, p, m') && TaskOk(m', p)
    requires var r := m.tasks[p].request;
      && r.key in m'.ledger && m'.ledger[r.key].request == r
      && (m.tasks[p].Waiting? ==> m'.ledger[r.key] == m.ledger[r.key] || !m.ledger[r.key].cell.Running?)
    ensures Owned(m')
  {
    var r := m.tasks[p].request;
    assert TaskOk(m, p);
    forall k
      ensures EntryOk(m', k)
    {
      assert EntryOk(m, k);
    }
    forall q
      ensures TaskOk(m', q)
    {
      assert TaskOk(m, q);
      if q != p && q in m.tasks && UnderLock(m.tasks[q]) {
        assert RunSteps(m, p, m', m.tasks[q].request.key.run);
      }
    }
  }

  /** A step of its own that emits at most one event keeps everything. */
  lemma StepKeeps(m: Machine, p: nat, m': Machine)
    requires Inv(m) && OwnStep(m, p, m') && TaskOk(m', p)
    requires var r := m.tasks[p].request;
      && r.key in m'.ledger && m'.ledger[r.key].request == r
      && (m.tasks[p].Waiting? ==> m'.ledger[r.key] == m.ledger[r.key] || !m.ledger[r.key].cell.Running?)
      && EntryGrows(m, m', r.key)
    requires forall run :: RunGrows(m, m', run)
    requires m'.events == m.events
             || (|m'.events| == |m.events| + 1 && m'.events[..|m.events|] == m.events
                 && Recorded(m', m'.events[|m.events|])
                 && forall i :: 0 <= i < |m.events| && Recorded(m, m.events[i]) ==> MayFollow(m.events[i], m'.events[|m.events|]))
    ensures Inv(m')
  {
    OwnStepKeeps(m, p, m');
    assert |m'.ledger| == |m'.ledger.Keys| == |m.ledger.Keys| == |m.ledger|;
    forall k
      ensures EntryGrows(m, m', k)
    {
    }
    assert Grows(m, m');
    Tell(m, m');
  }

  lemma WaitingKeeps(m: Machine, p: nat, given: Given)
    requires Inv(m) && p in m.tasks && m.tasks[p].Waiting?
    ensures Inv(Step(m, p, given))
  {
    assert TaskOk(m, p) && EntryOk(m, m.tasks[p].request.key);
    StepKeeps(m, p, Step(m, p, given));
  }

  lemma LookingKeeps(m: Machine, p: nat, given: Given)
    requires Inv(m) && p in m.tasks && m.tasks[p].Looking?
    ensures Inv(Step(m, p, given))
  {
    assert TaskOk(m, p);
    StepKeeps(m, p, Step(m, p, given));
  }

  lemma CloseSignalled(m: Machine, p: nat, given: Given)
    requires Inv(m) && p in m.tasks && m.tasks[p].Signalling? && given.closes
    ensures Inv(Step(m, p, given))
  {
    assert TaskOk(m, p);
    StepKeeps(m, p, Step(m, p, given));
  }

  lemma CleanupFails(m: Machine, p: nat, given: Given)
    requires Inv(m) && p in m.tasks && m.tasks[p].Signalling? && !given.closes
    ensures Inv(Step(m, p, given))
  {
    assert TaskOk(m, p);
    StepKeeps(m, p, Step(m, p, given));
  }

  lemma SignallingKeeps(m: Machine, p: nat, given: Given)
    requires Inv(m) && p in m.tasks && m.tasks[p].Signalling?
    ensures Inv(Step(m, p, given))
  {
    hide Inv, Step;
    if given.closes {
      CloseSignalled(m, p, given);
    } else {
      CleanupFails(m, p, given);
    }
  }

  lemma LockingKeeps(m: Machine, p: nat, given: Given)
    requires Inv(m) && p in m.tasks && m.tasks[p].Locking?
    ensures Inv(Step(m, p, given))
  {
    assert TaskOk(m, p);
    StepKeeps(m, p, Step(m, p, given));
  }

  lemma SettleKeeps(m: Machine, p: nat, fine: bool, given: Given)
    requires Inv(m) && p in m.tasks && UnderLock(m.tasks[p])
    requires fine && m.tasks[p].request.operation.Reset? ==> m.tasks[p].Operating?
    requires m.tasks[p].request.key.run in m.runs
    ensures Inv(Settle(m, p, m.tasks[p].request, fine, given))
  {
    assert TaskOk(m, p);
    StepKeeps(m, p, Settle(m, p, m.tasks[p].request, fine, given));
  }

  lemma ExhaustKeeps(m: Machine, p: nat, given: Given)
    requires Inv(m) && p in m.tasks && m.tasks[p].Holding? && m.tasks[p].request.key.run in m.runs
    ensures Inv(Exhaust(m, p, m.tasks[p].request, given))
  {
    assert TaskOk(m, p);
    StepKeeps(m, p, Exhaust(m, p, m.tasks[p].request, given));
  }

  lemma BeginKeeps(m: Machine, p: nat)
    requires Inv(m) && p in m.tasks && m.tasks[p].Holding?
    requires var r := m.tasks[p].request;
      && r.key.run in m.runs && !m.runs[r.key.run].cancelled
      && (r.operation.Reset? ==> m.runs[r.key.run].requests == 0)
    ensures Inv(At(Emit(m, Operated(m.tasks[p].request)), p, Operating(m.tasks[p].request)))
  {
    assert TaskOk(m, p);
    StepKeeps(m, p, At(Emit(m, Operated(m.tasks[p].request)), p, Operating(m.tasks[p].request)));
  }

  lemma HoldingKeeps(m: Machine, p: nat, given: Given)
    requires Inv(m) && p in m.tasks && m.tasks[p].Holding?
    ensures Inv(Step(m, p, given))
  {
    assert TaskOk(m, p);
    hide Inv, Settle, Exhaust, TaskOk, Spent;
    var r := m.tasks[p].request;
    var run := m.runs[r.key.run];
    SettleKeeps(m, p, r.operation.Close?, given);
    ExhaustKeeps(m, p, given);
    if !run.cancelled && (r.operation.Reset? ==> run.requests == 0) {
      BeginKeeps(m, p);
    }
  }

  lemma OperatingKeeps(m: Machine, p: nat, given: Given)
    requires Inv(m) && p in m.tasks && m.tasks[p].Operating?
    ensures Inv(Step(m, p, given))
  {
    assert TaskOk(m, p);
    SettleKeeps(m, p, given.fine && !m.runs[m.tasks[p].request.key.run].cancelled, given);
  }

  lemma RecoveringKeeps(m: Machine, p: nat, given: Given)
    requires Inv(m) && p in m.tasks && m.tasks[p].Recovering?
    ensures Inv(Step(m, p, given))
  {
    assert TaskOk(m, p);
    StepKeeps(m, p, Step(m, p, given));
  }

  lemma UnwindKeeps(m: Machine, p: nat)
    requires Inv(m) && p in m.tasks && Inner(m.tasks[p])
    ensures Inv(Unwind(m, p))
  {
    assert TaskOk(m, p);
    StepKeeps(m, p, Unwind(m, p));
  }

  lemma EndRunKeeps(m: Machine, run: RunKey, closes: bool)
    requires Inv(m)
    ensures Inv(EndRun(m, run, closes))
  {
    var m' := EndRun(m, run, closes);
    assert forall k :: EntryOk(m, k) ==> EntryOk(m', k);
    assert forall q :: TaskOk(m, q) ==> TaskOk(m', q);
    hide EntryOk, TaskOk;
    Tell(m, m');
  }

  lemma ShutDownKeeps(m: Machine)
    requires Inv(m)
    ensures Inv(m.(down := true))
  {
    var m' := m.(down := true);
    assert forall k :: EntryOk(m, k) ==> EntryOk(m', k);
    assert forall q :: TaskOk(m, q) ==> TaskOk(m', q);
    hide EntryOk, TaskOk;
    Tell(m, m');
  }

  lemma ApplyKeeps(m: Machine, action: Action)
    requires Inv(m)
    ensures Inv(Apply(m, action))
  {
    hide Inv, Step, Admit, Unwind, EndRun;
    match action
    case Arrive(p, r) => if p !in m.tasks { AdmitKeeps(m, p, r); }
    case Reap(run, closes) => EndRunKeeps(m, run, closes);
    case ShutDown => ShutDownKeeps(m);
    case Panic(p) => if p in m.tasks && Inner(m.tasks[p]) { UnwindKeeps(m, p); }
    case Next(p, given) =>
      if p in m.tasks {
        match m.tasks[p]
        case Waiting(_) => WaitingKeeps(m, p, given);
        case Looking(_) => LookingKeeps(m, p, given);
        case Signalling(_) => SignallingKeeps(m, p, given);
        case Locking(_) => LockingKeeps(m, p, given);
        case Holding(_) => HoldingKeeps(m, p, given);
        case Operating(_) => OperatingKeeps(m, p, given);
        case Recovering(_) => RecoveringKeeps(m, p, given);
      }
  }

  lemma {:induction false} InvHolds(actions: seq<Action>)
    ensures Inv(Exec(actions))
  {
    if actions != [] {
      InvHolds(actions[..|actions| - 1]);
      ApplyKeeps(Exec(actions[..|actions| - 1]), actions[|actions| - 1]);
    } else {
      assert forall k :: EntryOk(Start, k);
      assert forall p :: TaskOk(Start, p);
    }
  }

  // ---------------------------------------------------------------- at most once

  /** A request's work is done at most once, for all its copies, in every interleaving. */
  lemma {:induction false} ExecutesAtMostOnce(actions: seq<Action>, i: nat, j: nat)
    requires i < j < |Exec(actions).events|
    requires Exec(actions).events[i].Executed? && Exec(actions).events[j].Executed?
    ensures Exec(actions).events[i].request.key != Exec(actions).events[j].request.key
  {
    InvHolds(actions);
    assert MayFollow(Exec(actions).events[i], Exec(actions).events[j]);
  }

  /** Copies of one request get one reply; only a copy turned away at a full ledger may later
      find its identifier taken, by a close. */
  lemma {:induction false} RepliesAgree(actions: seq<Action>, r: Request, x: Reply, y: Reply)
    requires Replied(r, x) in Exec(actions).events && Replied(r, y) in Exec(actions).events
    ensures x == y || ({x, y} == {HostFull, Conflict} && TakenByClose(Exec(actions), r))
  {
    InvHolds(actions);
    var m := Exec(actions);
    assert Recorded(m, Replied(r, x)) && Recorded(m, Replied(r, y));
  }

  predicate TakenByClose(m: Machine, r: Request) {
    r.key in m.ledger && m.ledger[r.key].request != r && m.ledger[r.key].request.operation.Close?
  }

  /** Once an identifier is bound, any other content under it is a conflict, for ever. */
  lemma {:induction false} OtherContentConflicts(actions: seq<Action>, i: nat, j: nat)
    requires i < j < |Exec(actions).events|
    requires Exec(actions).events[i].Bound? && Exec(actions).events[j].Replied?
    requires var bound, other := Exec(actions).events[i].request, Exec(actions).events[j].request;
      other.key == bound.key && other != bound && Immediate(other).None?
    ensures Exec(actions).events[j].reply == Conflict
  {
    InvHolds(actions);
    var m := Exec(actions);
    assert Recorded(m, m.events[i]) && Recorded(m, m.events[j]) && MayFollow(m.events[i], m.events[j]);
  }

  /** A run that failed, timed out, was exhausted, reaped, closed or recovered from a panic is
      never operated on again, and a reset succeeds at most once on it. */
  lemma {:induction false} EndedIsForever(actions: seq<Action>, run: RunKey, i: nat, j: nat)
    requires i < j < |Exec(actions).events| && Ends(Exec(actions).events[i], run)
    ensures Exec(actions).events[j].Operated? ==> Exec(actions).events[j].request.key.run != run
  {
    InvHolds(actions);
    assert MayFollow(Exec(actions).events[i], Exec(actions).events[j]);
  }

  lemma {:induction false} ResetSucceedsOnce(actions: seq<Action>, i: nat, j: nat)
    requires i < j < |Exec(actions).events|
    requires Exec(actions).events[i].Served? && Exec(actions).events[j].Served? && Exec(actions).events[j].fine
    requires Exec(actions).events[j].request.operation.Reset?
    ensures Exec(actions).events[i].request.key.run != Exec(actions).events[j].request.key.run
  {
    InvHolds(actions);
    assert MayFollow(Exec(actions).events[i], Exec(actions).events[j]);
  }

  /** One request at a time works on a run. */
  lemma {:induction false} OneAtATime(actions: seq<Action>, p: nat, q: nat)
    requires p in Exec(actions).tasks && q in Exec(actions).tasks
    requires UnderLock(Exec(actions).tasks[p]) && UnderLock(Exec(actions).tasks[q])
    requires Exec(actions).tasks[p].request.key.run == Exec(actions).tasks[q].request.key.run
    ensures p == q
  {
    InvHolds(actions);
    assert TaskOk(Exec(actions), p) && TaskOk(Exec(actions), q);
  }

  // ---------------------------------------------------------------- how many runs

  function ResetRuns(runs: map<RunKey, Run>): set<RunKey> { set k | k in runs && runs[k].byReset && !runs[k].closed }

  lemma Fewer(a: set<RunKey>, b: set<RunKey>)
    requires a <= b
    ensures |a| <= |b|
  {
    assert b == a + (b - a);
  }

  ghost predicate Few(m: Machine) { |m.runs| <= MAX_RUNS && |ResetRuns(m.runs)| <= MAX_ACTIVE_RUNS }

  ghost predicate SameRuns(m: Machine, m': Machine) {
    && m'.runs.Keys == m.runs.Keys
    && forall k :: k in m.runs ==> m'.runs[k].byReset == m.runs[k].byReset && (m.runs[k].closed ==> m'.runs[k].closed)
  }

  lemma SameRunsFew(m: Machine, m': Machine)
    requires Few(m) && SameRuns(m, m')
    ensures Few(m')
  {
    Fewer(ResetRuns(m'.runs), ResetRuns(m.runs));
    assert |m'.runs| == |m'.runs.Keys| == |m.runs.Keys| == |m.runs|;
  }

  lemma MapSize(runs: map<RunKey, Run>, key: RunKey, run: Run)
    requires key !in runs
    ensures |runs[key := run]| == |runs| + 1
  {
    assert runs[key := run].Keys == runs.Keys + {key};
    assert |runs[key := run].Keys| == |runs[key := run]| && |runs.Keys| == |runs|;
  }

  lemma OneMoreRun(runs: map<RunKey, Run>, key: RunKey, run: Run)
    requires key !in runs && !run.closed
    ensures |runs[key := run]| == |runs| + 1
    ensures |ResetRuns(runs[key := run])| == |ResetRuns(runs)| + if run.byReset then 1 else 0
  {
    var grown, reset := runs[key := run], ResetRuns(runs);
    MapSize(runs, key, run);
    if run.byReset {
      assert ResetRuns(grown) == reset + {key};
    } else {
      assert ResetRuns(grown) == reset;
    }
  }

  lemma FindRunFew(m: Machine, p: nat, r: Request, created: bool)
    requires Few(m)
    ensures Few(FindRun(m, p, r, created))
  {
    var m' := FindRun(m, p, r, created);
    if m'.runs.Keys == m.runs.Keys {
      hide ResetRuns;
      SameRunsFew(m, m');
    } else {
      OneMoreRun(m.runs, r.key.run, Run(false, false, r.operation.Reset?, 0, 0, None));
      if r.operation.Reset? {
        Fewer(ResetRuns(m.runs), OpenRuns(m.runs));
      }
    }
  }

  lemma SettleSameRuns(m: Machine, p: nat, r: Request, fine: bool, given: Given)
    requires r.key.run in m.runs
    ensures SameRuns(m, Settle(m, p, r, fine, given))
  {
  }

  lemma TurnSameRuns(m: Machine, p: nat, r: Request, fine: bool, given: Given)
    requires r.key.run in m.runs
    ensures SameRuns(m, Settle(m, p, r, fine, given)) && SameRuns(m, Turn(m, p, r, given))
  {
    hide Settle;
    SettleSameRuns(m, p, r, fine, given);
    if r.operation.Close? || (!Spent(m.runs[r.key.run]) && Turn(m, p, r, given).runs != m.runs) {
      SettleSameRuns(m, p, r, r.operation.Close?, given);
    }
  }

  lemma EndRunSameRuns(m: Machine, run: RunKey, closes: bool)
    ensures SameRuns(m, EndRun(m, run, closes))
  {
  }

  lemma StepSameRuns(m: Machine, p: nat, given: Given)
    requires p in m.tasks && !m.tasks[p].Looking?
    ensures SameRuns(m, Step(m, p, given))
  {
    hide Turn, Settle, EndRun;
    var r := m.tasks[p].request;
    EndRunSameRuns(m, r.key.run, given.closes);
    if UnderLock(m.tasks[p]) && r.key.run in m.runs {
      TurnSameRuns(m, p, r, given.fine && !m.runs[r.key.run].cancelled, given);
    }
  }

  lemma LookingFinds(m: Machine, p: nat, given: Given)
    requires p in m.tasks && m.tasks[p].Looking?
    ensures Step(m, p, given) == FindRun(m, p, m.tasks[p].request, given.created)
  {
  }

  lemma ApplyFew(m: Machine, action: Action)
    requires Few(m)
    ensures Few(Apply(m, action))
  {
    hide Few, Step, FindRun;
    if action.Next? && action.p in m.tasks {
      if m.tasks[action.p].Looking? {
        FindRunFew(m, action.p, m.tasks[action.p].request, action.given.created);
        LookingFinds(m, action.p, action.given);
      } else {
        StepSameRuns(m, action.p, action.given);
        SameRunsFew(m, Step(m, action.p, action.given));
      }
    } else {
      SameRunsFew(m, Apply(m, action));
    }
  }

  /** At most eight runs opened by a reset are open at once, of at most 1024 ever recorded. */
  lemma {:induction false} RunsAreFew(actions: seq<Action>)
    ensures |Exec(actions).runs| <= MAX_RUNS
    ensures |ResetRuns(Exec(actions).runs)| <= MAX_ACTIVE_RUNS
  {
    FewHolds(actions);
  }

  lemma {:induction false} FewHolds(actions: seq<Action>)
    ensures Few(Exec(actions))
  {
    if actions != [] {
      FewHolds(actions[..|actions| - 1]);
      ApplyFew(Exec(actions[..|actions| - 1]), actions[|actions| - 1]);
    } else {
      assert ResetRuns(Start.runs) == {};
    }
  }

  // ---------------------------------------------------------------- where a panic is different

  ghost predicate Reachable(m: Machine) { exists actions :: Exec(actions) == m }

  lemma Reaches(m: Machine, action: Action) returns (m': Machine)
    requires Reachable(m)
    ensures Reachable(m') && m' == Apply(m, action)
  {
    var actions :| Exec(actions) == m;
    assert (actions + [action])[..|actions|] == actions;
    m' := Apply(m, action);
    assert Exec(actions + [action]) == m';
  }

  /** `reset` panicked on its run, which was not ended yet, and `later` operates on it. */
  ghost predicate LetThrough(m: Machine, reset: Request, later: Request) {
    && 0 in m.tasks && m.tasks[0] == Recovering(reset) && Operated(reset) in m.events
    && 1 in m.tasks && m.tasks[1] == Operating(later)
  }

  /** A panicking request lets go of its run before the run is ended: a request queued behind
      it still operates on the run it left. */
  lemma PanicLetsOneThrough(reset: Request, later: Request)
    requires reset.operation.Reset? && later.operation.Other? && Immediate(reset).None? && Immediate(later).None?
    requires later.key.run == reset.key.run && later.key != reset.key && reset.freshMode
    ensures exists m :: Reachable(m) && LetThrough(m, reset, later)
  {
    hide Step, Admit, Exec;
    var given := Given(true, true, true, "", 0);
    var m := OpensItsRun(reset, given);
    m := LockAndBegin(m, 0, reset, given);
    assert m.events[|m.events| - 1] == Operated(reset);
    m := QueuesBehind(m, reset, later, given);
    m := PanicFollows(m, reset, later, given);
    assert LetThrough(m, reset, later);
  }

  lemma OpensItsRun(reset: Request, given: Given) returns (m: Machine)
    requires reset.operation.Reset? && Immediate(reset).None? && reset.freshMode && given.created
    ensures Reachable(m) && !m.down && m.tasks == map[0 := Locking(reset)] && m.ledger.Keys == {reset.key}
    ensures m.runs == map[reset.key.run := Run(false, false, true, 0, 0, None)]
  {
    assert Exec([]) == Start;
    m := Reaches(Start, Arrive(0, reset));
    m := Reaches(m, Next(0, given));
    assert OpenRuns(m.runs) == {};
    m := Reaches(m, Next(0, given));
  }

  lemma QueuesBehind(start: Machine, reset: Request, later: Request, given: Given) returns (m: Machine)
    requires Reachable(start) && start.tasks == map[0 := Operating(reset)] && Operated(reset) in start.events
    requires start.runs == map[reset.key.run := Run(false, false, true, 0, 0, Some(0))] && !start.down
    requires start.ledger.Keys == {reset.key} && later.key != reset.key && Immediate(later).None?
    requires later.operation.Other? && later.key.run == reset.key.run
    ensures Reachable(m) && m.tasks == map[0 := Operating(reset), 1 := Locking(later)]
    ensures m.runs == start.runs && Operated(reset) in m.events
  {
    assert |start.ledger| == |start.ledger.Keys| == 1;
    m := Reaches(start, Arrive(1, later));
    m := Reaches(m, Next(1, given));
    m := Reaches(m, Next(1, given));
    assert start.events <= m.events;
  }

  lemma PanicFollows(start: Machine, reset: Request, later: Request, given: Given) returns (m: Machine)
    requires Reachable(start) && start.tasks == map[0 := Operating(reset), 1 := Locking(later)]
    requires start.runs == map[reset.key.run := Run(false, false, true, 0, 0, Some(0))] && Operated(reset) in start.events
    requires later.operation.Other? && later.key.run == reset.key.run
    ensures Reachable(m) && 0 in m.tasks && 1 in m.tasks
    ensures m.tasks[0] == Recovering(reset) && m.tasks[1] == Operating(later) && Operated(reset) in m.events
  {
    hide Step, Admit, EndRun, Exec;
    m := Reaches(start, Panic(0));
    assert m.tasks == map[0 := Recovering(reset), 1 := Locking(later)];
    assert m.runs == map[reset.key.run := Run(false, false, true, 0, 0, None)] && m.events == start.events;
    m := LockAndBegin(m, 1, later, given);
  }

  lemma LockAndBegin(start: Machine, p: nat, r: Request, given: Given) returns (m: Machine)
    requires Reachable(start) && p in start.tasks && start.tasks[p] == Locking(r) && r.key.run in start.runs
    requires !r.operation.Close? && start.runs[r.key.run] == Run(false, false, true, 0, 0, None)
    ensures Reachable(m) && m.tasks == start.tasks[p := Operating(r)] && m.events == start.events + [Operated(r)]
    ensures m.runs == start.runs[r.key.run := Run(false, false, true, 0, 0, Some(p))]
    ensures m.ledger == start.ledger && m.down == start.down
  {
    m := Reaches(start, Next(p, given));
    m := Reaches(m, Next(p, given));
  }

  // ---------------------------------------------------------------- the host's code

  predicate Idle(run: Run) { run.holder.None? }

  /** Nothing is in flight: what one request alone finds. */
  ghost predicate Quiet(m: Machine) {
    && m.tasks == map[]
    && (forall k :: k in m.ledger ==> !m.ledger[k].cell.Running?)
    && (forall k :: k in m.runs ==> Idle(m.runs[k]))
  }

  /** A request `p` at `pc`, alone. */
  ghost predicate Alone(m: Machine, p: nat, pc: Pc) {
    && m.tasks == map[p := pc] && pc.request.key in m.ledger && m.ledger[pc.request.key].request == pc.request
    && (forall k :: k in m.ledger && k != pc.request.key ==> !m.ledger[k].cell.Running?)
    && (pc.Waiting? ==> !m.ledger[pc.request.key].cell.Running?)
    && (forall k :: k in m.runs && !(UnderLock(pc) && k == pc.request.key.run) ==> Idle(m.runs[k]))
    && (!pc.Waiting? && !pc.Looking? ==> pc.request.key.run in m.runs)
  }

  /** When a request may open a run that nobody knows. */
  predicate Opens(runs: map<RunKey, Run>, r: Request, given: Given) {
    && (r.operation.Reset? || r.operation.Close?) && r.freshMode && given.created
    && |runs| < MAX_RUNS && (r.operation.Reset? ==> |OpenRuns(runs)| < MAX_ACTIVE_RUNS)
  }

  /** What a turn under the lock makes of a run, and answers: a close is fine; a run that has
      served too much is exhausted; an ended run, a late reset and a failure fail it. */
  predicate TurnOutcome(was: Run, now: Run, r: Request, given: Given, response: Response) {
    && now.holder.None? && now.byReset == was.byReset
    && if r.operation.Close? then
         response == Fine(given.body) && now.requests == was.requests + 1 && now.bytes == was.bytes + given.bytes
         && now.cancelled == was.cancelled && now.closed == was.closed
       else if was.requests >= 10_000 || was.bytes >= 33_554_432 then
         response == Exhausted && now.requests == was.requests && now.bytes == was.bytes
         && now.cancelled && now.closed == (was.closed || given.closes)
       else if was.cancelled || (r.operation.Reset? && was.requests > 0) || !given.fine then
         response == Failed && now.requests == was.requests + 1 && now.bytes == was.bytes + given.bytes
         && now.cancelled && now.closed == (was.closed || given.closes)
       else
         response == Fine(given.body) && now.requests == was.requests + 1 && now.bytes == was.bytes + given.bytes
         && !now.cancelled && now.closed == was.closed
  }

  lemma HolderAside(was: Run, p: nat, now: Run, r: Request, given: Given, response: Response)
    ensures TurnOutcome(was.(holder := Some(p)), now, r, given, response) <==> TurnOutcome(was, now, r, given, response)
  {
  }

  /** What a new request does to the runs, and answers. */
  predicate ServedAs(runs: map<RunKey, Run>, down: bool, runs': map<RunKey, Run>, r: Request, given: Given, response: Response) {
    var k := r.key.run;
    if down || (k !in runs && !Opens(runs, r, given)) then response == Refused && runs' == runs
    else
      var start := if k in runs then runs[k] else Run(false, false, r.operation.Reset?, 0, 0, None);
      k in runs' && runs' == runs[k := runs'[k]] && WorkOutcome(start, runs'[k], r, given, response)
  }

  /** What is done to a run that was found: a close signals it first, and is refused if that
      fails. */
  predicate WorkOutcome(was: Run, now: Run, r: Request, given: Given, response: Response) {
    if r.operation.Close? && !given.closes then response == CleanupFailed && now == was.(cancelled := true)
    else TurnOutcome(if r.operation.Close? then was.(cancelled := true, closed := true) else was, now, r, given, response)
  }

  /** What one request alone gets: by its envelope, by the entry there is, or by its run. */
  predicate Expected(requests: map<Key, Entry>, runs: map<RunKey, Run>, down: bool, runs': map<RunKey, Run>,
                     r: Request, given: Given, reply: Reply)
  {
    if !ValidEnvelope(r) then reply == Invalid && runs' == runs
    else if r.operation.Describe? then reply == Descriptor(r.key.run.protocol) && runs' == runs
    else if r.key in requests && requests[r.key].request != r then reply == Conflict && runs' == runs
    else if r.key in requests && requests[r.key].cell.Ready? then
      reply == Answered(requests[r.key].cell.response) && runs' == runs
    else if r.key !in requests && |requests| >= MAX_HOST_REQUESTS && !r.operation.Close? then reply == HostFull && runs' == runs
    else reply.Answered? && ServedAs(runs, down, runs', r, given, reply.response)
  }

  /** The host's tables, and one dispatched request that nothing interleaves with. */
  class Host {
    var requests: map<Key, Entry>
    var runs: map<RunKey, Run>
    var shutdown: bool
    ghost var machine: Machine
    ghost var log: seq<Action>

    ghost predicate Valid()
      reads this
    {
      machine == Exec(log) && machine.ledger == requests && machine.runs == runs && machine.down == shutdown
    }

    constructor ()
      ensures Valid() && machine == Start && log == []
    {
      requests, runs, shutdown := map[], map[], false;
      machine, log := Start, [];
    }

    ghost method Note(action: Action)
      requires machine == Exec(log)
      modifies this`machine, this`log
      ensures machine == Apply(old(machine), action) && machine == Exec(log)
      ensures log == old(log) + [action]
    {
      assert (log + [action])[..|log|] == log;
      machine, log := Apply(machine, action), log + [action];
    }

    ghost method NoteNext(p: nat, given: Given)
      requires machine == Exec(log) && p in machine.tasks
      modifies this`machine, this`log
      ensures machine == Step(old(machine), p, given) && machine == Exec(log)
      ensures log == old(log) + [Next(p, given)]
    {
      Note(Next(p, given));
    }

    /** The reply is the one the machine gives, however the request came out. */
    method Dispatch(p: nat, r: Request, given: Given) returns (reply: Reply)
      requires Valid() && Quiet(machine)
      modifies this
      ensures Valid() && Quiet(machine)
      ensures machine.events != [] && machine.events[|machine.events| - 1] == Replied(r, reply)
      ensures Taken(old(log), log, p, r, given)
      ensures Expected(old(requests), old(runs), shutdown, runs, r, given, reply) && shutdown == old(shutdown)
    {
      hide Exec, Step, Admit, Quiet, ServedAs, ValidEnvelope;
      var answer := AdmitRequest(p, r);
      if answer.Some? {
        return answer.value;
      }
      if requests[r.key].cell.Empty? {
        DispatchInner(p, r, given);
      }
      reply := Answered(requests[r.key].cell.response);
      ReadyReplies(machine, p, given);
      NoteNext(p, given);
    }

    /** The step under the ledger's lock: what is answered at once, or the entry to wait for. */
    method AdmitRequest(p: nat, r: Request) returns (answer: Option<Reply>)
      requires Valid() && Quiet(machine)
      modifies this
      ensures Valid() && log == old(log) + [Arrive(p, r)]
      ensures answer.Some? ==> Quiet(machine) && machine.events == old(machine).events + [Replied(r, answer.value)]
      ensures answer.None? ==> Alone(machine, p, Waiting(r))
      ensures runs == old(runs) && shutdown == old(shutdown)
      ensures answer.Some? ==> forall given :: Expected(old(requests), runs, shutdown, runs, r, given, answer.value)
      ensures answer.None? ==>
                ValidEnvelope(r) && !r.operation.Describe?
                && (if r.key in old(requests) then old(requests)[r.key].request == r && requests == old(requests)
                    else (|old(requests)| < MAX_HOST_REQUESTS || r.operation.Close?) && requests == old(requests)[r.key := Entry(r, Empty)])
    {
      hide Exec, ValidEnvelope;
      Note(Arrive(p, r));
      if !ValidEnvelope(r) {
        return Some(Invalid);
      }
      if r.operation.Describe? {
        return Some(Descriptor(r.key.run.protocol));
      }
      var full := |requests| >= MAX_HOST_REQUESTS;
      if r.key in requests {
        return if requests[r.key].request != r then Some(Conflict) else None;
      }
      if full && !r.operation.Close? {
        return Some(HostFull);
      }
      requests := requests[r.key := Entry(r, Empty)];
      return None;
    }

    method DispatchInner(p: nat, r: Request, given: Given)
      requires Valid() && Alone(machine, p, Waiting(r)) && requests[r.key].cell.Empty?
      modifies this
      ensures Valid() && Alone(machine, p, Waiting(r)) && requests[r.key].cell.Ready?
      ensures Follows(old(log), log, p, given) && shutdown == old(shutdown)
      ensures ServedAs(old(runs), shutdown, runs, r, given, requests[r.key].cell.response)
    {
      hide Exec, FindRun, Turn, Opens, WorkOutcome;
      NoteNext(p, given);
      requests := requests[r.key := Entry(r, Running(p))];
      var found := RunFor(p, r, given);
      if found {
        WorkOn(p, r, given);
      }
    }

    method WorkOn(p: nat, r: Request, given: Given)
      requires Valid() && Alone(machine, p, if r.operation.Close? then Signalling(r) else Locking(r))
      modifies this
      ensures Valid() && Alone(machine, p, Waiting(r)) && requests[r.key].cell.Ready?
      ensures Follows(old(log), log, p, given)
      ensures shutdown == old(shutdown) && r.key.run in old(runs) && r.key.run in runs && runs == old(runs)[r.key.run := runs[r.key.run]]
      ensures WorkOutcome(old(runs)[r.key.run], runs[r.key.run], r, given, requests[r.key].cell.response)
    {
      hide Exec, Step, TurnOutcome;
      var signalled := true;
      if r.operation.Close? {
        signalled := Signal(p, r, given);
      }
      if signalled {
        UnderTheLock(p, r, given);
      }
    }

    method RunFor(p: nat, r: Request, given: Given) returns (found: bool)
      requires Valid() && Alone(machine, p, Looking(r))
      modifies this
      ensures Valid() && (!found ==> Alone(machine, p, Waiting(r)) && requests[r.key].cell.Ready?)
      ensures found ==> Alone(machine, p, if r.operation.Close? then Signalling(r) else Locking(r))
      ensures log == old(log) + [Next(p, given)] && shutdown == old(shutdown)
      ensures found <==> !shutdown && (r.key.run in old(runs) || Opens(old(runs), r, given))
      ensures runs == if found && r.key.run !in old(runs)
                      then old(runs)[r.key.run := Run(false, false, r.operation.Reset?, 0, 0, None)] else old(runs)
      ensures !found ==> requests[r.key].cell.response == Refused
    {
      hide Exec, Step, OpenRuns, Alone;
      FindsAlone(machine, p, r, given.created);
      LookingFinds(machine, p, given);
      NoteNext(p, given);
      if shutdown {
        requests := requests[r.key := Entry(r, Ready(Refused))];
        return false;
      }
      if r.key.run in runs {
        return true;
      }
      var active := OpenRuns(runs);
      if (!r.operation.Reset? && !r.operation.Close?) || |runs| >= MAX_RUNS
         || (!r.operation.Close? && |active| >= MAX_ACTIVE_RUNS) || !r.freshMode || !given.created {
        requests := requests[r.key := Entry(r, Ready(Refused))];
        return false;
      }
      runs := runs[r.key.run := Run(false, false, r.operation.Reset?, 0, 0, None)];
      return true;
    }

    /** Closing signals Brain before it waits for the run's lock. */
    method Signal(p: nat, r: Request, given: Given) returns (closed: bool)
      requires Valid() && Alone(machine, p, Signalling(r))
      modifies this
      ensures Valid() && Alone(machine, p, if closed then Locking(r) else Waiting(r))
      ensures !closed ==> requests[r.key].cell.Ready?
      ensures closed == given.closes && log == old(log) + [Next(p, given)] && shutdown == old(shutdown)
      ensures r.key.run in old(runs)
      ensures runs == old(runs)[r.key.run := old(runs)[r.key.run].(cancelled := true, closed := old(runs)[r.key.run].closed || closed)]
      ensures !closed ==> requests[r.key].cell.response == CleanupFailed
    {
      hide Exec;
      NoteNext(p, given);
      runs := runs[r.key.run := CloseBrain(runs[r.key.run], given.closes)];
      if !given.closes {
        requests := requests[r.key := Entry(r, Ready(CleanupFailed))];
      }
      return given.closes;
    }

    method UnderTheLock(p: nat, r: Request, given: Given)
      requires Valid() && Alone(machine, p, Locking(r))
      modifies this
      ensures Valid() && Alone(machine, p, Waiting(r)) && requests[r.key].cell.Ready?
      ensures Follows(old(log), log, p, given)
      ensures shutdown == old(shutdown) && r.key.run in old(runs) && r.key.run in runs && runs == old(runs)[r.key.run := runs[r.key.run]]
      ensures TurnOutcome(old(runs)[r.key.run], runs[r.key.run], r, given, requests[r.key].cell.response)
    {
      hide Exec, Settle, Exhaust, Turn, TurnOutcome;
      ghost var was := runs[r.key.run];
      NoteNext(p, given);
      runs := runs[r.key.run := runs[r.key.run].(holder := Some(p))];
      TakeTurn(p, r, given);
      HolderAside(was, p, runs[r.key.run], r, given, requests[r.key].cell.response);
    }

    method TakeTurn(p: nat, r: Request, given: Given)
      requires Valid() && Alone(machine, p, Holding(r)) && machine.tasks == map[p := Holding(r)] && r.key.run in machine.runs
      modifies this
      ensures Valid() && Alone(machine, p, Waiting(r)) && requests[r.key].cell.Ready?
      ensures Follows(old(log), log, p, given)
      ensures shutdown == old(shutdown) && r.key.run in old(runs) && r.key.run in runs && runs == old(runs)[r.key.run := runs[r.key.run]]
      ensures TurnOutcome(old(runs)[r.key.run], runs[r.key.run], r, given, requests[r.key].cell.response)
    {
      hide Exec, Step, Settle, Exhaust, CloseBrain, Alone;
      LockedStep(machine, p, given);
      var run := runs[r.key.run];
      if r.operation.Close? {
        SettleRun(p, Holding(r), true, given);
      } else if run.requests >= MAX_REQUESTS || run.bytes >= MAX_RESPONSE_BYTES {
        ExhaustRun(p, r, given);
      } else if run.cancelled || (r.operation.Reset? && run.requests > 0) {
        SettleRun(p, Holding(r), false, given);
      } else {
        OperateRun(p, r, given);
      }
    }

    method OperateRun(p: nat, r: Request, given: Given)
      requires Valid() && Alone(machine, p, Holding(r)) && !machine.runs[r.key.run].cancelled
      requires Step(machine, p, given) == At(Emit(machine, Operated(r)), p, Operating(r))
      requires !r.operation.Close? && !Spent(machine.runs[r.key.run])
      requires r.operation.Reset? ==> machine.runs[r.key.run].requests == 0
      modifies this
      ensures Valid() && Alone(machine, p, Waiting(r)) && requests[r.key].cell.Ready?
      ensures Follows(old(log), log, p, given)
      ensures shutdown == old(shutdown) && r.key.run in old(runs) && r.key.run in runs && runs == old(runs)[r.key.run := runs[r.key.run]]
      ensures TurnOutcome(old(runs)[r.key.run], runs[r.key.run], r, given, requests[r.key].cell.response)
    {
      hide Exec, Step, Settle;
      NoteNext(p, given);
      LockedStep(machine, p, given);
      SettleRun(p, Operating(r), given.fine, given);
    }

    method ExhaustRun(p: nat, r: Request, given: Given)
      requires Valid() && Alone(machine, p, Holding(r))
      requires Step(machine, p, given) == Exhaust(machine, p, r, given)
      modifies this
      ensures Valid() && Alone(machine, p, Waiting(r)) && requests[r.key].cell.Ready?
      ensures log == old(log) + [Next(p, given)]
      ensures shutdown == old(shutdown) && r.key.run in old(runs) && requests[r.key].cell.response == Exhausted
      ensures runs == old(runs)[r.key.run := old(runs)[r.key.run].(
                cancelled := true, closed := old(runs)[r.key.run].closed || given.closes, holder := None)]
    {
      hide Exec, Step;
      NoteNext(p, given);
      runs := runs[r.key.run := CloseBrain(runs[r.key.run], given.closes).(holder := None)];
      requests := requests[r.key := Entry(r, Ready(Exhausted))];
    }

    /** The request is counted, its run ended if it failed, and its lock let go. */
    method SettleRun(p: nat, pc: Pc, fine: bool, given: Given)
      requires Valid() && Alone(machine, p, pc) && UnderLock(pc)
      requires Step(machine, p, given) == Settle(machine, p, pc.request, fine, given)
      modifies this
      ensures Valid() && Alone(machine, p, Waiting(pc.request)) && requests[pc.request.key].cell.Ready?
      ensures log == old(log) + [Next(p, given)]
      ensures var k := pc.request.key.run;
        && shutdown == old(shutdown) && k in old(runs)
        && requests[pc.request.key].cell.response == (if fine then Fine(given.body) else Failed)
        && runs == old(runs)[k := Run(old(runs)[k].cancelled || !fine, old(runs)[k].closed || (!fine && given.closes), old(runs)[k].byReset,
                                      old(runs)[k].requests + 1, old(runs)[k].bytes + given.bytes, None)]
    {
      hide Exec, Step;
      NoteNext(p, given);
      var r := pc.request;
      var run := if fine then runs[r.key.run] else CloseBrain(runs[r.key.run], given.closes);
      runs := runs[r.key.run := run.(requests := run.requests + 1, bytes := run.bytes + given.bytes, holder := None)];
      requests := requests[r.key := Entry(r, Ready(if fine then Fine(given.body) else Failed))];
    }
  }

  /** What looking for the run leaves of a request that is alone. */
  lemma FindsAlone(m: Machine, p: nat, r: Request, created: bool)
    requires Alone(m, p, Looking(r))
    ensures r.key in m.ledger && m.tasks.Keys == {p} && m.tasks[p] == Looking(r)
    ensures var m' := FindRun(m, p, r, created);
      Alone(m', p, if !m.down && r.key.run in m'.runs then (if r.operation.Close? then Signalling(r) else Locking(r)) else Waiting(r))
  {
  }

  lemma LockedStep(m: Machine, p: nat, given: Given)
    requires p in m.tasks && UnderLock(m.tasks[p]) && m.tasks[p].request.key.run in m.runs
    ensures var r := m.tasks[p].request;
      Step(m, p, given) == if m.tasks[p].Holding? then Turn(m, p, r, given)
                           else Settle(m, p, r, given.fine && !m.runs[r.key.run].cancelled, given)
  {
  }

  lemma ReadyReplies(m: Machine, p: nat, given: Given)
    requires p in m.tasks && m.tasks[p].Waiting? && m.tasks[p].request.key in m.ledger
    requires m.ledger[m.tasks[p].request.key].cell.Ready? && Alone(m, p, m.tasks[p])
    ensures Quiet(Step(m, p, given))
    ensures var r := m.tasks[p].request;
      Step(m, p, given) == Emit(m.(tasks := m.tasks - {p}), Replied(r, Answered(m.ledger[r.key].cell.response)))
  {
  }

  /** Only steps of `p` were added. */
  predicate Follows(before: seq<Action>, after: seq<Action>, p: nat, given: Given) {
    before <= after && forall i :: |before| <= i < |after| ==> after[i] == Next(p, given)
  }

  predicate Taken(before: seq<Action>, after: seq<Action>, p: nat, r: Request, given: Given) {
    |after| > |before| && before <= after && after[|before|] == Arrive(p, r)
    && forall i :: |before| < i < |after| ==> after[i] == Next(p, given)
  }
}
