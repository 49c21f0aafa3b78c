/** What each request does to an evaluation run, told by its fields.

    Of every request there is one lemma: when the run stays live, in terms of the fields it had
    between requests and of what Brain and the model answered, and what the fields are then. A
    request that fails ends its run, and an ended run stays as it is. */
module TaskOutcomes {
  import opened Wrappers
  import opened TaskRuns

  /** All but the time is as it was. */
  predicate SameButTime(s: Story, s': Story) { s' == s.(time := s'.time) }

  /** The tasks, what was handed over and what was asked are as they were. */
  predicate SameTasks(s: Story, s': Story) {
    s'.chapters == s.chapters && s'.open == s.open && s'.formed == s.formed && s'.asked == s.asked
  }

  predicate ClockFits(r: Request, a: Answers) { r.time.Some? ==> a.clock }

  // ---------------------------------------------------------------- observations

  predicate ObservedInTime(r: Request, o: Observation, a: Answers) {
    && ClockFits(r, a)
    && (o.time.Some? ==> if r.time.Some? then o.time == r.time else a.clock)
  }

  /** An observation that names a call while a task is active is taken for a tool's result. */
  predicate ForTask(s: Story, o: Observation) { o.callId.Some? && ActiveTask(s).Some? }

  /** It answers the call that is pending: its call and its tool. */
  predicate AnswersPending(s: Story, o: Observation) {
    Pending(s).Some? && o.callId == Some(Pending(s).value.id) && o.tool == Some(Pending(s).value.tool)
  }

  predicate MayObserve(s: Story, mode: Mode, o: Observation, a: Answers) {
    if o.id in s.seen then s.seen[o.id] == o
    else if ForTask(s, o) then
      AnswersPending(s, o) && a.brain
      && Size(Current(s) + [Returned(Pending(s).value, o.bytes)]) <= MAX_TRANSIENT_BYTES
    else mode.Persistent? ==> a.brain
  }

  /** What a new observation leaves: a result is the last step and nothing is pending; anything
      else is told to Brain, whose memory is then recalled anew. */
  predicate Observed(s: Story, s': Story, mode: Mode, o: Observation) {
    && s'.seen == s.seen[o.id := o] && ActiveTask(s') == ActiveTask(s)
    && (if ForTask(s, o) then
          && Current(s') == Current(s) + [Returned(Call(o.callId.value, if o.tool.Some? then o.tool.value else ""), o.bytes)]
          && Pending(s').None? && s'.memory == s.memory && s'.formed == s.formed
          && s'.version == s.version && s'.taken == s.taken + [o.id]
        else
          && SameTasks(s, s')
          && (if mode.Persistent? then s'.memory.None? && s'.version == s.version + 1 && s'.taken == s.taken + [o.id]
              else s'.memory == s.memory && s'.version == s.version && s'.taken == s.taken))
  }

  lemma ResultIsTaken(s: Story, mode: Mode, o: Observation, a: Answers)
    requires Inv(s, mode) && s.live && o.id !in s.seen && ForTask(s, o)
    ensures var s' := See(Absorb(s, mode, o, a), o);
      && (s'.live <==> MayObserve(s, mode, o, a))
      && (s'.live ==> Observed(s, s', mode, o) && s'.time == s.time)
  {
    hide Size, WellTold, Formed, Fresh, TakenOnce;
    if AnswersPending(s, o) {
      var step := Returned(Pending(s).value, o.bytes);
      var s1 := Push(s.(taken := s.taken + [o.id]), step);
      assert Current(s1) == Current(s) + [step];
    }
  }

  lemma OtherIsFormed(s: Story, mode: Mode, o: Observation, a: Answers)
    requires Inv(s, mode) && s.live && o.id !in s.seen && !ForTask(s, o)
    ensures var s' := See(Absorb(s, mode, o, a), o);
      && (s'.live <==> MayObserve(s, mode, o, a))
      && (s'.live ==> Observed(s, s', mode, o) && s'.time == s.time)
  {
    hide Size, WellTold, Formed, Fresh, TakenOnce;
  }

  /** The time bears on none of this. */
  lemma AnyTime(s: Story, time: nat, mode: Mode, o: Observation, a: Answers)
    ensures var s1 := s.(time := time);
      && (Inv(s, mode) ==> Inv(s1, mode)) && ForTask(s1, o) == ForTask(s, o) && MayObserve(s1, mode, o, a) == MayObserve(s, mode, o, a)
      && forall s' :: Observed(s1, s', mode, o) == Observed(s, s', mode, o)
  {
  }

  /** An observation is accepted exactly when it comes in time, has an identifier, and repeats
      what was seen under it, answers the pending call, or is Brain's to form; a repetition
      then changes nothing but the time. */
  lemma {:induction false} ObserveExactly(mode: Mode, time: nat, rounds: seq<Round>, r: Request, a: Answers, o: Observation)
    requires Exec(mode, time, rounds).live && r.operation == Observe(Some(o))
    ensures var s := Exec(mode, time, rounds);
      var s' := Perform(s, mode, r, a);
      && (s'.live <==> ObservedInTime(r, o, a) && o.id != "" && MayObserve(s, mode, o, a))
      && (s'.live ==>
            && s'.time == (if r.time.Some? then r.time.value else if o.time.Some? then o.time.value else s.time)
            && if o.id in s.seen then SameButTime(s, s') else Observed(s, s', mode, o))
  {
    hide Absorb, See, Observed, WellTold, Formed, Fresh, TakenOnce, Size;
    InvHolds(mode, time, rounds);
    var s := Exec(mode, time, rounds);
    var s1 := s.(time := if r.time.Some? then r.time.value else if o.time.Some? then o.time.value else s.time);
    AnyTime(s, s1.time, mode, o, a);
    if o.id !in s.seen {
      if ForTask(s1, o) {
        ResultIsTaken(s1, mode, o, a);
      } else {
        OtherIsFormed(s1, mode, o, a);
      }
    }
  }

  // ---------------------------------------------------------------- boundaries

  /** A boundary can be crossed: no call is pending, and what must be handed over is. */
  predicate MayCross(s: Story, mode: Mode, fine: bool) {
    Pending(s).None? && (mode.NoMemory? || ActiveTask(s).Some? ==> fine)
  }

  /** The task is closed, and in a persistent run handed to Brain with all its steps. */
  predicate Crossed(s: Story, s': Story, mode: Mode) {
    && ActiveTask(s').None? && Current(s') == [] && Pending(s').None? && s'.memory.None?
    && s'.chapters == s.chapters && s'.seen == s.seen && s'.taken == s.taken && s'.asked == s.asked
    && s'.formed == s.formed + (if mode.Persistent? && ActiveTask(s).Some? then [Chapter(ActiveTask(s).value, Current(s))] else [])
  }

  /** What a boundary request needs besides. */
  predicate AlsoFine(mode: Mode, r: Request, a: Answers) {
    match r.operation
    case Maintain => mode.Persistent? ==> a.brain
    case SessionBoundary => mode.Persistent? ==> a.brain
    case Respond(valid) =>
      && r.protocol.Agent? && valid && (mode.Persistent? ==> a.recall.Some?)
      && a.output.Some? && a.output.value.calls == [] && a.output.value.reply
    case _ => false
  }

  lemma CrossesExactly(s: Story, mode: Mode, fine: bool)
    requires s.live && (ActiveTask(s).Some? ==> Current(s) != [])
    ensures var s' := FinishTask(s, mode, fine);
      && (s'.live <==> MayCross(s, mode, fine))
      && (s'.live ==> Crossed(s, s', mode) && s'.time == s.time && s'.version == s.version + Handed(s, mode))
  {
  }

  /** How much a boundary hands to Brain. */
  function Handed(s: Story, mode: Mode): nat { if mode.Persistent? && ActiveTask(s).Some? then 1 else 0 }

  lemma CrossedAnyTime(s: Story, time: nat, s': Story, mode: Mode, fine: bool)
    ensures var s1 := s.(time := time);
      && Current(s1) == Current(s) && ActiveTask(s1) == ActiveTask(s) && MayCross(s1, mode, fine) == MayCross(s, mode, fine)
      && (Crossed(s1, s', mode) <==> Crossed(s, s', mode))
      && (Crossed(s, s', mode) <==> Crossed(s, s'.(version := s'.version + 1), mode))
  {
  }

  lemma ServesBoundary(s: Story, mode: Mode, r: Request, a: Answers)
    requires s.live && (ActiveTask(s).Some? ==> Current(s) != [])
    requires r.operation.Maintain? || r.operation.SessionBoundary? || r.operation.Respond?
    ensures var s' := Serve(s, mode, r, a);
      && (s'.live <==> MayCross(s, mode, a.before) && AlsoFine(mode, r, a))
      && (s'.live ==> Crossed(s, s', mode) && s'.time == s.time)
      && (s'.live ==> s'.version == s.version + Handed(s, mode) + if r.operation.Maintain? && mode.Persistent? then 1 else 0)
  {
    hide FinishTask, DoAct, DoObserve, MayCross, Crossed;
    CrossesExactly(s, mode, a.before);
    CrossedAnyTime(s, s.time, FinishTask(s, mode, a.before), mode, a.before);
  }

  /** Maintenance, a session boundary and a response end the task, or end the run. */
  lemma {:induction false} BoundaryExactly(mode: Mode, time: nat, rounds: seq<Round>, r: Request, a: Answers)
    requires Exec(mode, time, rounds).live
    requires r.operation.Maintain? || r.operation.SessionBoundary? || r.operation.Respond?
    ensures var s := Exec(mode, time, rounds);
      var s' := Perform(s, mode, r, a);
      && (s'.live <==> ClockFits(r, a) && MayCross(s, mode, a.before) && AlsoFine(mode, r, a))
      && (s'.live ==> Crossed(s, s', mode) && s'.time == if r.time.Some? then r.time.value else s.time)
      && (s'.live ==> s'.version == s.version + Handed(s, mode) + if r.operation.Maintain? && mode.Persistent? then 1 else 0)
  {
    hide FinishTask, Serve, Crossed, MayCross, AlsoFine;
    var s := Exec(mode, time, rounds);
    var s1 := s.(time := if r.time.Some? then r.time.value else s.time);
    FieldsAgree(mode, time, rounds);
    assert Current(s1) == Current(s) && ActiveTask(s1) == ActiveTask(s);
    ServesBoundary(s1, mode, r, a);
    CrossedAnyTime(s, s1.time, Serve(s1, mode, r, a), mode, a.before);
  }

  /** The other requests change nothing but the time, and fail exactly so. */
  lemma {:induction false} OthersExactly(mode: Mode, time: nat, rounds: seq<Round>, r: Request, a: Answers)
    requires Exec(mode, time, rounds).live
    requires r.operation.Audit? || r.operation.Reset? || r.operation.Retrieve? || r.operation == Observe(None)
    ensures var s := Exec(mode, time, rounds);
      var s' := Perform(s, mode, r, a);
      && (s'.live <==>
            match r.operation
            case Audit(empty) => empty && a.brain
            case Reset => ClockFits(r, a)
            case Retrieve(valid) => ClockFits(r, a) && r.protocol.Memory? && valid && (mode.Persistent? ==> a.recall.Some?)
            case _ => false)
      && (s'.live ==> SameButTime(s, s') && s'.time == if r.time.Some? && !r.operation.Audit? then r.time.value else s.time)
  {
  }

  // ---------------------------------------------------------------- acts

  /** A model's answer the task allows: one call by the alias of one of its tools, or a reply. */
  predicate Allows(task: Task, output: Option<Output>) {
    && output.Some?
    && (if output.value.calls == [] then output.value.reply
        else |output.value.calls| == 1 && task.tools.Some?
             && exists i: nat :: i < |task.tools.value| && output.value.calls[0] == Alias(i))
  }

  /** The step of such an answer: the call under this request's identifier of the tool the
      alias is for, or the reply. */
  predicate StepIs(step: Step, task: Task, output: Output, r: Request) {
    if output.calls == [] then step == Said(output.bytes)
    else
      && step.Called? && step.call.id == "bot_" + r.id && step.bytes == output.bytes && task.tools.Some?
      && exists i: nat :: i < |task.tools.value| && output.calls[0] == Alias(i) && step.call.tool == task.tools.value[i].name
  }

  lemma MovesAsAllowed(task: Task, output: Option<Output>, r: Request)
    requires Fits(task)
    ensures Move(task, output, CallId(r)).Some? <==> Allows(task, output)
    ensures Allows(task, output) ==> StepIs(Move(task, output, CallId(r)).value, task, output.value, r)
  {
    if output.Some? && |output.value.calls| == 1 {
      var tools, alias := task.tools.value, output.value.calls[0];
      if RunnerName(tools, alias).Some? {
        var i := NamedByAlias(tools, alias);
      } else if i: nat :| i < |tools| && alias == Alias(i) {
        AliasNamesTool(tools, i);
      }
    }
  }

  /** Room for one more step of some bytes. */
  predicate Room(steps: seq<Step>, bytes: nat) {
    (if steps == [] then 2 else Size(steps) + 1) + bytes <= MAX_TRANSIENT_BYTES
  }

  /** The model can be asked and its answer kept: memory is at hand or recalled, the answer is
      allowed and fits, and a reply is handed over. */
  predicate MayStep(task: Task, steps: seq<Step>, memory: Option<string>, mode: Mode, a: Answers) {
    && (memory.Some? || mode.NoMemory? || a.recall.Some?)
    && Allows(task, a.output) && Room(steps, a.output.value.bytes)
    && (a.output.value.calls == [] ==> a.after)
  }

  /** What one more step leaves of a story `s` whose last chapter is `task` with `steps`: a
      call is pending, a reply ends the task; the model saw the memory there was, or a recall. */
  predicate Stepped(s: Story, s': Story, task: Task, steps: seq<Step>, step: Step, mode: Mode, a: Answers) {
    && s.chapters != []
    && s'.chapters == s.chapters[..|s.chapters| - 1] + [Chapter(task, steps + [step])]
    && s'.seen == s.seen && s'.taken == s.taken && s'.time == s.time
    && s'.asked == s.asked + [Asked(
         if s.memory.Some? then s.memory.value else if mode.NoMemory? || a.recall.None? then "" else a.recall.value,
         if s.memory.Some? then s.recalledAt else s.version, s.version)]
    && (if step.Called? then
          ActiveTask(s') == Some(task) && Current(s') == steps + [step] && Pending(s') == Some(step.call)
          && s'.memory.Some? && s'.formed == s.formed
        else
          ActiveTask(s').None? && Current(s') == [] && Pending(s').None? && s'.memory.None?
          && s'.formed == s.formed + if mode.Persistent? then [Chapter(task, steps + [step])] else [])
  }

  /** The model's answer, once the memory is at hand. */
  lemma AnswersExactly(s: Story, mode: Mode, task: Task, step: Step, a: Answers)
    requires s.live && s.open && ActiveTask(s) == Some(task) && Pending(s).None? && s.memory.Some? && !step.Returned?
    ensures var s', steps := Answer(s, mode, Some(step), a), Current(s) + [step];
      && (s'.live <==> Room(Current(s), step.bytes) && (step.Said? ==> a.after))
      && s'.seen == s.seen && s'.taken == s.taken && s'.time == s.time && s'.asked == s.asked
      && s'.chapters == s.chapters[..|s.chapters| - 1] + [Chapter(task, steps)]
      && (s'.live && step.Called? ==>
            ActiveTask(s') == Some(task) && Current(s') == steps && Pending(s') == Some(step.call)
            && s'.memory == s.memory && s'.formed == s.formed)
      && (s'.live && step.Said? ==>
            ActiveTask(s').None? && Current(s') == [] && Pending(s').None? && s'.memory.None?
            && s'.formed == s.formed + if mode.Persistent? then [Chapter(task, steps)] else [])
  {
    hide Size;
    var s1 := Push(s, step);
    var c := s.chapters[|s.chapters| - 1];
    assert s1.chapters == s.chapters[..|s.chapters| - 1] + [Chapter(task, c.steps + [step])];
    assert Current(s1) == Current(s) + [step];
    OneMoreSize(Current(s), step);
  }

  lemma AsksExactly(s: Story, mode: Mode, a: Answers)
    requires s.live
    ensures var s' := Ask(Remember(s, mode, a.recall));
      var memory := if s.memory.Some? then s.memory else if mode.NoMemory? then Some("") else a.recall;
      && (s'.live <==> memory.Some?)
      && (s'.live ==> s' == s.(memory := memory, recalledAt := if s.memory.Some? then s.recalledAt else s.version,
                               asked := s.asked + [Asked(memory.value, if s.memory.Some? then s.recalledAt else s.version, s.version)]))
  {
  }

  lemma StepsExactly(s: Story, mode: Mode, task: Task, r: Request, a: Answers)
    requires s.live && s.open && ActiveTask(s) == Some(task) && Fits(task) && Pending(s).None?
    ensures var s' := Take(s, mode, task, CallId(r), a);
      && (s'.live <==> MayStep(task, Current(s), s.memory, mode, a))
      && (s'.live ==> s'.time == s.time)
      && (s'.live ==> exists step :: StepIs(step, task, a.output.value, r) && Stepped(s, s', task, Current(s), step, mode, a))
  {
    hide Fits, Move, StepIs, Allows, Size, Ask, Remember, Answer, Push;
    MovesAsAllowed(task, a.output, r);
    AsksExactly(s, mode, a);
    var s1 := Ask(Remember(s, mode, a.recall));
    var move := Move(task, a.output, CallId(r));
    AnswerNeeds(s1, mode, move, a);
    if s1.live && move.Some? {
      MoveBytes(task, a.output, r);
      AnswersExactly(s1, mode, task, move.value, a);
      if Take(s, mode, task, CallId(r), a).live {
        assert Stepped(s, Take(s, mode, task, CallId(r), a), task, Current(s), move.value, mode, a);
      }
    } else if move.None? {
      NoAnswerAllowed(task, a.output, r);
    }
  }

  lemma AnswerNeeds(s: Story, mode: Mode, step: Option<Step>, a: Answers)
    ensures Answer(s, mode, step, a).live ==> s.live && step.Some?
  {
  }

  lemma NoAnswerAllowed(task: Task, output: Option<Output>, r: Request)
    requires Fits(task) && Move(task, output, CallId(r)).None?
    ensures !Allows(task, output)
  {
    MovesAsAllowed(task, output, r);
  }

  lemma OneMoreSize(steps: seq<Step>, step: Step)
    ensures Size(steps + [step]) <= MAX_TRANSIENT_BYTES <==> Room(steps, step.bytes)
  {
    assert (steps + [step])[..|steps|] == steps;
  }

  lemma MoveBytes(task: Task, output: Option<Output>, r: Request)
    requires Move(task, output, CallId(r)).Some?
    ensures output.Some? && Move(task, output, CallId(r)).value.bytes == output.value.bytes
    ensures !Move(task, output, CallId(r)).value.Returned?
    ensures Move(task, output, CallId(r)).value.Said? <==> output.value.calls == []
  {
  }

  /** A continuation takes one more step of its own task, exactly when that is the active one
      and no call of it is pending. */
  lemma {:induction false} ContinueExactly(mode: Mode, time: nat, rounds: seq<Round>, r: Request, task: Task, a: Answers)
    requires Exec(mode, time, rounds).live && r.operation == Act(task, true)
    ensures var s := Exec(mode, time, rounds);
      var s' := Perform(s, mode, r, a);
      && (s'.live <==>
            && r.protocol.Agent? && ClockFits(r, a) && task.id != ""
            && ActiveTask(s).Some? && ActiveTask(s).value.id == task.id && Fits(ActiveTask(s).value) && Pending(s).None?
            && MayStep(ActiveTask(s).value, Current(s), s.memory, mode, a))
      && (s'.live ==> exists step ::
            StepIs(step, ActiveTask(s).value, a.output.value, r)
            && Stepped(s.(time := s'.time), s', ActiveTask(s).value, Current(s), step, mode, a))
      && (s'.live ==> s'.time == if r.time.Some? then r.time.value else s.time)
  {
    hide Take, Fits, StepIs, Stepped, Allows, Room, Size, FinishTask, DoObserve;
    var s := Exec(mode, time, rounds);
    var s1 := s.(time := if r.time.Some? then r.time.value else s.time);
    assert Current(s1) == Current(s) && ActiveTask(s1) == ActiveTask(s);
    if ActiveTask(s).Some? && Fits(ActiveTask(s).value) && Pending(s).None? {
      StepsExactly(s1, mode, ActiveTask(s).value, r, a);
    }
  }

  /** The story in which the previous task ended and `task` began. */
  predicate Began(s: Story, s1: Story, task: Task, mode: Mode) {
    && s1.chapters == s.chapters + [Chapter(task, [])] && s1.open && s1.memory.None?
    && s1.seen == s.seen && s1.taken == s.taken && s1.asked == s.asked
    && s1.formed == s.formed + (if mode.Persistent? && ActiveTask(s).Some? then [Chapter(ActiveTask(s).value, Current(s))] else [])
  }

  /** A new task ends the one before it and takes its own first step, exactly when its tools
      are acceptable and no call is pending. */
  lemma {:induction false} BeginExactly(mode: Mode, time: nat, rounds: seq<Round>, r: Request, task: Task, a: Answers)
    requires Exec(mode, time, rounds).live && r.operation == Act(task, false)
    ensures var s := Exec(mode, time, rounds);
      var s' := Perform(s, mode, r, a);
      && (s'.live <==>
            && r.protocol.Agent? && ClockFits(r, a) && task.id != "" && Fits(task)
            && MayCross(s, mode, a.before) && MayStep(task, [], None, mode, a))
      && (s'.live ==> exists s1, step ::
            Began(s, s1, task, mode) && StepIs(step, task, a.output.value, r) && Stepped(s1, s', task, [], step, mode, a))
      && (s'.live ==> s'.time == if r.time.Some? then r.time.value else s.time)
  {
    hide Take, Fits, StepIs, Stepped, Allows, Room, Size, FinishTask, DoObserve, MayCross, Crossed;
    var s := Exec(mode, time, rounds);
    var s0 := s.(time := if r.time.Some? then r.time.value else s.time);
    FieldsAgree(mode, time, rounds);
    CrossesExactly(s0, mode, a.before);
    var ended := FinishTask(s0, mode, a.before);
    CrossedAnyTime(s, s0.time, ended, mode, a.before);
    var s1 := OpenTask(ended, task);
    EndedTakesNothing(s1, mode, task, r, a);
    if ended.live && Fits(task) {
      BeginsFrom(s, ended, task, mode);
      StepsExactly(s1, mode, task, r, a);
    }
  }

  lemma EndedTakesNothing(s: Story, mode: Mode, task: Task, r: Request, a: Answers)
    ensures Take(s, mode, task, CallId(r), a).live ==> s.live
  {
  }

  lemma BeginsFrom(s: Story, ended: Story, task: Task, mode: Mode)
    requires Crossed(s, ended, mode) && ended.live
    ensures var s1 := OpenTask(ended, task);
      && Began(s, s1, task, mode) && s1.live && ActiveTask(s1) == Some(task) && Current(s1) == [] && Pending(s1).None?
      && s1.time == ended.time
  {
  }

  /** A run goes on request by request. */
  lemma RunsGoOn(mode: Mode, time: nat, rounds: seq<Round>, round: Round)
    ensures Exec(mode, time, []) == Beginning(time)
    ensures Exec(mode, time, rounds + [round]) == Perform(Exec(mode, time, rounds), mode, round.request, round.answers)
  {
    assert (rounds + [round])[..|rounds|] == rounds;
  }

  /** An ended run stays as it is. */
  lemma EndedStays(s: Story, mode: Mode, r: Request, a: Answers)
    requires !s.live
    ensures Perform(s, mode, r, a) == s
  {
  }
}
