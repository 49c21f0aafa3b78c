/** What single steps of requests do, and who opens a run.

    The steps hold in every interleaving: each finds the ledger, the runs and the locks as other
    requests left them, and touches only its own entry, its own run and its own task. What one
    request gets that is alone is what `Host.Dispatch` promises. */
module RequestOutcomes {
  import opened Wrappers
  import opened RequestLedger
  import Text

  // ---------------------------------------------------------------- who opens a run

  ghost predicate OpenedBy(events: seq<Event>, k: RunKey) {
    exists i :: 0 <= i < |events| && events[i].Bound? && events[i].request.key.run == k && MayOpen(events[i].request)
  }

  predicate MayOpen(r: Request) { (r.operation.Reset? || r.operation.Close?) && r.freshMode && ValidEnvelope(r) }

  ghost predicate WasBound(events: seq<Event>, r: Request) { Bound(r) in events }

  ghost predicate Accounted(m: Machine) {
    && (forall k :: k in m.runs ==> OpenedBy(m.events, k))
    && (forall k :: k in m.ledger ==> WasBound(m.events, m.ledger[k].request))
  }

  /** The story goes on, every entry keeps its request, and no run is added. */
  ghost predicate Kept(m: Machine, m': Machine) {
    && m.events <= m'.events && m'.ledger.Keys == m.ledger.Keys && m'.runs.Keys == m.runs.Keys
    && forall k :: k in m.ledger ==> m'.ledger[k].request == m.ledger[k].request
  }

  lemma SettleKept(m: Machine, p: nat, r: Request, fine: bool, given: Given)
    requires r.key in m.ledger && m.ledger[r.key].request == r && r.key.run in m.runs
    ensures Kept(m, Settle(m, p, r, fine, given)) && Kept(m, Exhaust(m, p, r, given))
  {
  }

  lemma TurnKept(m: Machine, p: nat, r: Request, given: Given)
    requires r.key in m.ledger && m.ledger[r.key].request == r && r.key.run in m.runs
    ensures Kept(m, Turn(m, p, r, given))
  {
    hide Settle, Exhaust;
    SettleKept(m, p, r, r.operation.Close?, given);
  }

  lemma EndRunKept(m: Machine, p: nat, r: Request, response: Response, closes: bool)
    requires r.key in m.ledger && m.ledger[r.key].request == r
    ensures Kept(m, EndRun(m, r.key.run, closes)) && Kept(m, Deliver(EndRun(m, r.key.run, closes), p, r, response))
    ensures Kept(m, At(EndRun(m, r.key.run, closes), p, Locking(r)))
  {
  }

  lemma WaitingKept(m: Machine, p: nat, given: Given)
    requires p in m.tasks && TaskOk(m, p) && m.tasks[p].Waiting?
    ensures Kept(m, Step(m, p, given))
  {
    hide Turn, Settle, EndRun, FindRun;
  }

  lemma LockingKept(m: Machine, p: nat, given: Given)
    requires p in m.tasks && TaskOk(m, p) && m.tasks[p].Locking?
    ensures Kept(m, Step(m, p, given))
  {
    hide Turn, Settle, EndRun, FindRun;
  }

  lemma StepKept(m: Machine, p: nat, given: Given)
    requires p in m.tasks && TaskOk(m, p) && !m.tasks[p].Looking?
    ensures Kept(m, Step(m, p, given))
  {
    hide Turn, Settle, EndRun, FindRun, Kept, Deliver;
    var r := m.tasks[p].request;
    if m.tasks[p].Waiting? {
      WaitingKept(m, p, given);
    } else if m.tasks[p].Locking? {
      LockingKept(m, p, given);
    } else if UnderLock(m.tasks[p]) {
      TurnKept(m, p, r, given);
      SettleKept(m, p, r, given.fine && !m.runs[r.key.run].cancelled, given);
    } else {
      EndRunKept(m, p, r, Panicked, given.closes);
      EndRunKept(m, p, r, CleanupFailed, given.closes);
      SameKept(m);
    }
  }

  lemma SameKept(m: Machine)
    ensures Kept(m, m)
  {
  }

  /** Looking for its run adds none but the request's own, which it may open. */
  lemma FindKept(m: Machine, p: nat, r: Request, created: bool)
    requires r.key in m.ledger && m.ledger[r.key].request == r && Immediate(r).None?
    ensures var m' := FindRun(m, p, r, created);
      && Kept(m, m'.(runs := m.runs))
      && (m'.runs.Keys == m.runs.Keys || (m'.runs.Keys == m.runs.Keys + {r.key.run} && MayOpen(r)))
  {
    assert ValidEnvelope(r);
    hide ValidEnvelope, OpenRuns, Immediate;
  }

  /** What one action may add: a request's own run, or an entry that it binds. */
  ghost predicate Grew(m: Machine, m': Machine) {
    && m.events <= m'.events
    && (forall k :: k in m'.ledger ==>
          if k in m.ledger then m'.ledger[k].request == m.ledger[k].request else WasBound(m'.events, m'.ledger[k].request))
    && (forall k :: k in m'.runs && k !in m.runs ==>
          exists r: Request :: r.key.run == k && MayOpen(r) && r.key in m.ledger && m.ledger[r.key].request == r)
  }

  lemma OtherKept(m: Machine, action: Action)
    requires Inv(m) && !action.Next? && !action.Arrive?
    ensures Kept(m, Apply(m, action))
  {
  }

  lemma BindGrew(m: Machine, p: nat, r: Request)
    requires r.key !in m.ledger
    ensures Grew(m, Bind(m, p, r))
  {
    var m' := Bind(m, p, r);
    assert m'.events[|m'.events| - 1] in m'.events;
  }

  lemma ReplyGrew(m: Machine, p: nat, r: Request, reply: Reply)
    ensures Grew(m, Emit(m, Replied(r, reply))) && Grew(m, At(m, p, Waiting(r)))
  {
  }

  lemma ArriveGrew(m: Machine, p: nat, r: Request)
    ensures Grew(m, Apply(m, Arrive(p, r)))
  {
    hide Immediate, Grew, Bind, Emit, At;
    SameGrew(m);
    ReplyGrew(m, p, r, Conflict);
    ReplyGrew(m, p, r, HostFull);
    if Immediate(r).Some? {
      ReplyGrew(m, p, r, Immediate(r).value);
    }
    if r.key !in m.ledger {
      BindGrew(m, p, r);
    }
  }

  lemma KeptGrew(m: Machine, m': Machine)
    requires Kept(m, m')
    ensures Grew(m, m')
  {
  }

  lemma ActionGrew(m: Machine, action: Action)
    requires Inv(m)
    ensures Grew(m, Apply(m, action))
  {
    hide Step, FindRun, Grew, Kept, Immediate;
    match action
    case Arrive(p, r) => ArriveGrew(m, p, r);
    case Next(p, given) =>
      if p in m.tasks {
        assert TaskOk(m, p);
        if m.tasks[p].Looking? {
          LookingGrew(m, p, given);
        } else {
          StepKept(m, p, given);
          KeptGrew(m, Step(m, p, given));
        }
      } else {
        SameGrew(m);
      }
    case _ =>
      OtherKept(m, action);
      KeptGrew(m, Apply(m, action));
  }

  lemma SameGrew(m: Machine)
    ensures Grew(m, m)
  {
  }

  lemma LookingGrew(m: Machine, p: nat, given: Given)
    requires Inv(m) && p in m.tasks && m.tasks[p].Looking?
    ensures Grew(m, Step(m, p, given))
  {
    var r := m.tasks[p].request;
    assert TaskOk(m, p) && EntryOk(m, r.key);
    LookingFinds(m, p, given);
    FindKept(m, p, r, given.created);
    hide Step, FindRun, Inv, MayOpen;
  }

  lemma FoundLater(events: seq<Event>, more: seq<Event>)
    requires events <= more
    ensures forall k :: OpenedBy(events, k) ==> OpenedBy(more, k)
    ensures forall r :: WasBound(events, r) ==> WasBound(more, r)
  {
    assert forall i :: 0 <= i < |events| ==> more[i] == events[i];
    forall k | OpenedBy(events, k)
      ensures OpenedBy(more, k)
    {
      var i :| 0 <= i < |events| && events[i].Bound? && events[i].request.key.run == k && MayOpen(events[i].request);
      assert more[i].Bound?;
    }
  }

  lemma {:induction false} AccountedHolds(actions: seq<Action>)
    ensures Accounted(Exec(actions))
  {
    if actions != [] {
      var m, action := Exec(actions[..|actions| - 1]), actions[|actions| - 1];
      AccountedHolds(actions[..|actions| - 1]);
      InvHolds(actions[..|actions| - 1]);
      ActionGrew(m, action);
      AccountedOn(m, Apply(m, action));
    }
  }

  lemma AccountedOn(m: Machine, m': Machine)
    requires Accounted(m) && Grew(m, m')
    ensures Accounted(m')
  {
    hide OpenedBy, WasBound, MayOpen;
    FoundLater(m.events, m'.events);
    forall k | k in m'.runs && k !in m.runs
      ensures OpenedBy(m'.events, k)
    {
      var r: Request :| r.key.run == k && MayOpen(r) && r.key in m.ledger && m.ledger[r.key].request == r;
      BoundOpens(m'.events, r);
    }
  }

  lemma BoundOpens(events: seq<Event>, r: Request)
    requires WasBound(events, r) && MayOpen(r)
    ensures OpenedBy(events, r.key.run)
  {
    var i :| 0 <= i < |events| && events[i] == Bound(r);
    assert events[i].Bound?;
  }

  /** Only a reset or a close of a fresh run, with a valid envelope, opens a run. */
  lemma {:induction false} RunsAreOpenedByResetOrClose(actions: seq<Action>, k: RunKey)
    requires k in Exec(actions).runs
    ensures exists i :: 0 <= i < |Exec(actions).events| && Exec(actions).events[i].Bound?
                        && Exec(actions).events[i].request.key.run == k && MayOpen(Exec(actions).events[i].request)
  {
    AccountedHolds(actions);
  }

  // ---------------------------------------------------------------- one step of one request

  /** Nothing but the request's own task, entry and run is touched. */
  predicate OnlyItsOwn(m: Machine, m': Machine, p: nat, r: Request) {
    && m'.down == m.down
    && m'.tasks - {p} == m.tasks - {p} && m'.ledger - {r.key} == m.ledger - {r.key} && m'.runs - {r.key.run} == m.runs - {r.key.run}
  }

  /** The response is there for every copy, and the request waits to be told it. */
  predicate Delivered(m': Machine, p: nat, r: Request, response: Response) {
    && r.key in m'.ledger && m'.ledger[r.key].request == r && m'.ledger[r.key].cell == Ready(response)
    && p in m'.tasks && m'.tasks[p] == Waiting(r)
  }

  predicate MovesTo(m: Machine, m': Machine, p: nat, pc: Pc) {
    p in m'.tasks && m'.tasks[p] == pc && m'.ledger == m.ledger
  }

  /** A request of one of the two protocols whose run and request have identifiers of 1 to 256
      bytes. */
  predicate WellAddressed(r: Request) {
    && r.wellFormed && (r.key.run.protocol == "mib-agent/0.1" || r.key.run.protocol == "mib-memory-backend/0.1")
    && 1 <= Text.Utf8Size(r.key.run.run) && Text.Utf8Size(r.key.run.run) <= 256
    && 1 <= Text.Utf8Size(r.key.request) && Text.Utf8Size(r.key.request) <= 256
  }

  /** A request that arrives is answered at once, joins the entry of its identifier, or binds it. */
  lemma ArriveExactly(m: Machine, p: nat, r: Request)
    requires Inv(m) && p !in m.tasks
    ensures var m', known, events := Apply(m, Arrive(p, r)), r.key in m.ledger, Apply(m, Arrive(p, r)).events;
      && m'.runs == m.runs && m'.down == m.down
      && if !WellAddressed(r) then events == m.events + [Replied(r, Invalid)] && m'.tasks == m.tasks && m'.ledger == m.ledger
         else if r.operation.Describe? then
           events == m.events + [Replied(r, Descriptor(r.key.run.protocol))] && m'.tasks == m.tasks && m'.ledger == m.ledger
         else if known && m.ledger[r.key].request != r then
           events == m.events + [Replied(r, Conflict)] && m'.tasks == m.tasks && m'.ledger == m.ledger
         else if !known && |m.ledger| >= 100_000 && !r.operation.Close? then
           events == m.events + [Replied(r, HostFull)] && m'.tasks == m.tasks && m'.ledger == m.ledger
         else
           && m'.tasks == m.tasks[p := Waiting(r)]
           && (known ==> m'.ledger == m.ledger && events == m.events)
           && (!known ==> m'.ledger == m.ledger[r.key := Entry(r, Empty)] && events == m.events + [Bound(r)])
  {
    assert ValidEnvelope(r) == WellAddressed(r);
    hide ValidEnvelope, WellAddressed, Inv;
  }

  /** A waiting request starts the work if nobody has, and is told the response once it is there. */
  lemma WaitingExactly(m: Machine, p: nat, given: Given)
    requires Inv(m) && p in m.tasks && m.tasks[p].Waiting?
    ensures var m', r := Apply(m, Next(p, given)), m.tasks[p].request;
      && r.key in m.ledger && OnlyItsOwn(m, m', p, r) && m'.runs == m.runs
      && match m.ledger[r.key].cell
         case Empty => MovesOn(m, m', p, r)
         case Running(_) => m' == m
         case Ready(response) =>
           m'.tasks == m.tasks - {p} && m'.ledger == m.ledger && m'.events == m.events + [Replied(r, Answered(response))]
  {
    assert TaskOk(m, p);
    hide Inv;
  }

  predicate MovesOn(m: Machine, m': Machine, p: nat, r: Request) {
    && m'.tasks == m.tasks[p := Looking(r)] && m'.ledger == m.ledger[r.key := Entry(r, Running(p))]
    && m'.events == m.events + [Executed(r)]
  }

  /** The runs that count as open are those not closed yet. */
  lemma OpenRunsExactly(runs: map<RunKey, Run>, k: RunKey)
    ensures k in OpenRuns(runs) <==> k in runs && !runs[k].closed
  {
  }

  /** A request finds its run, opens it where it may, or is refused. */
  lemma LookingExactly(m: Machine, p: nat, given: Given)
    requires Inv(m) && p in m.tasks && m.tasks[p].Looking?
    ensures var m', r := Apply(m, Next(p, given)), m.tasks[p].request;
      var k := r.key.run;
      && OnlyItsOwn(m, m', p, r) && m'.events == m.events
      && if m.down || (k !in m.runs && !Opens(m.runs, r, given)) then m'.runs == m.runs && Delivered(m', p, r, Refused)
         else
           && MovesTo(m, m', p, if r.operation.Close? then Signalling(r) else Locking(r))
           && (if k in m.runs then m'.runs == m.runs
               else m'.runs == m.runs[k := Run(false, false, r.operation.Reset?, 0, 0, None)])
  {
    assert TaskOk(m, p);
    hide Inv;
  }

  /** A close signals its run, and then waits for it or is refused. */
  lemma SignallingExactly(m: Machine, p: nat, given: Given)
    requires Inv(m) && p in m.tasks && m.tasks[p].Signalling? && m.tasks[p].request.key.run in m.runs
    ensures var m', r := Apply(m, Next(p, given)), m.tasks[p].request;
      var was := m.runs[r.key.run];
      && OnlyItsOwn(m, m', p, r) && m'.events == m.events + [Ended(r.key.run)]
      && m'.runs == m.runs[r.key.run := was.(cancelled := true, closed := was.closed || given.closes)]
      && if given.closes then MovesTo(m, m', p, Locking(r)) else Delivered(m', p, r, CleanupFailed)
  {
    assert TaskOk(m, p);
    hide Inv;
  }

  /** A request takes its run's lock exactly when nobody has it. */
  lemma LockingExactly(m: Machine, p: nat, given: Given)
    requires Inv(m) && p in m.tasks && m.tasks[p].Locking? && m.tasks[p].request.key.run in m.runs
    ensures var m', r := Apply(m, Next(p, given)), m.tasks[p].request;
      var was := m.runs[r.key.run];
      if was.holder.Some? then m' == m
      else OnlyItsOwn(m, m', p, r) && m'.events == m.events && MovesTo(m, m', p, Holding(r))
           && m'.runs == m.runs[r.key.run := was.(holder := Some(p))]
  {
    assert TaskOk(m, p);
    hide Inv;
  }

  /** Under the lock a request operates on the run, or its turn is over. */
  lemma HoldingExactly(m: Machine, p: nat, given: Given)
    requires Inv(m) && p in m.tasks && m.tasks[p].Holding?
    ensures var m', r := Apply(m, Next(p, given)), m.tasks[p].request;
      && r.key.run in m.runs && r.key.run in m'.runs && OnlyItsOwn(m, m', p, r)
      && var was := m.runs[r.key.run];
         if !r.operation.Close? && was.requests < 10_000 && was.bytes < 33_554_432 && !was.cancelled
            && (r.operation.Reset? ==> was.requests == 0) then
           MovesTo(m, m', p, Operating(r)) && m'.runs == m.runs && m'.events == m.events + [Operated(r)]
         else
           exists response :: Delivered(m', p, r, response) && TurnOutcome(was, m'.runs[r.key.run], r, given, response)
  {
    assert TaskOk(m, p);
    LockedStep(m, p, given);
    var m', r := Apply(m, Next(p, given)), m.tasks[p].request;
    hide Inv, Step;
    if !m'.tasks[p].Operating? {
      assert Delivered(m', p, r, m'.ledger[r.key].cell.response);
    }
  }

  /** An operation that failed, or whose run was ended meanwhile, ends the run. */
  lemma OperatingExactly(m: Machine, p: nat, given: Given)
    requires Inv(m) && p in m.tasks && m.tasks[p].Operating?
    ensures var m', r := Apply(m, Next(p, given)), m.tasks[p].request;
      && r.key.run in m.runs && r.key.run in m'.runs && OnlyItsOwn(m, m', p, r)
      && var was, now, fine := m.runs[r.key.run], m'.runs[r.key.run], given.fine && !m.runs[r.key.run].cancelled;
         && Delivered(m', p, r, if fine then Fine(given.body) else Failed) && m'.events == m.events + [Served(r, fine)]
         && now == Run(was.cancelled || !fine, was.closed || (!fine && given.closes), was.byReset,
                       was.requests + 1, was.bytes + given.bytes, None)
  {
    assert TaskOk(m, p);
    LockedStep(m, p, given);
    hide Inv, Step;
  }

  /** A panic lets go of the run's lock; recovering from it ends the run and answers. */
  lemma PanicExactly(m: Machine, p: nat)
    requires Inv(m) && p in m.tasks
    ensures var m', r := Apply(m, Panic(p)), m.tasks[p].request;
      if m.tasks[p].Waiting? || m.tasks[p].Recovering? then m' == m
      else
        && OnlyItsOwn(m, m', p, r) && MovesTo(m, m', p, Recovering(r)) && m'.events == m.events
        && (if r.key.run in m.runs && m.runs[r.key.run].holder == Some(p)
            then m'.runs == m.runs[r.key.run := m.runs[r.key.run].(holder := None)] else m'.runs == m.runs)
  {
    assert TaskOk(m, p);
    hide Inv;
  }

  lemma RecoveringExactly(m: Machine, p: nat, given: Given)
    requires Inv(m) && p in m.tasks && m.tasks[p].Recovering?
    ensures var m', r := Apply(m, Next(p, given)), m.tasks[p].request;
      && OnlyItsOwn(m, m', p, r) && Delivered(m', p, r, Panicked) && RunEnded(m, m', r.key.run, given.closes)
  {
    assert TaskOk(m, p);
    hide Inv;
  }

  /** A run that is known is cancelled, closed if Brain closes, and its end is told. */
  predicate RunEnded(m: Machine, m': Machine, k: RunKey, closes: bool) {
    if k in m.runs then
      m'.runs == m.runs[k := m.runs[k].(cancelled := true, closed := m.runs[k].closed || closes)]
      && m'.events == m.events + [Ended(k)]
    else m'.runs == m.runs && m'.events == m.events
  }

  /** Reaping ends a run that is still open, and nothing else; a shutdown refuses what follows. */
  lemma ReapExactly(m: Machine, k: RunKey, closes: bool)
    ensures var m' := Apply(m, Reap(k, closes));
      && m'.tasks == m.tasks && m'.ledger == m.ledger && m'.down == m.down
      && (if k in m.runs && !m.runs[k].closed then RunEnded(m, m', k, closes) else m' == m)
    ensures Apply(m, ShutDown) == m.(down := true)
  {
  }
}
