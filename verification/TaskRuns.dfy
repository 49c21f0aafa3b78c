/** One evaluation run's task and tool-call state, as its requests change it. */
module TaskRuns {
  import opened Wrappers
  import Text

  const MAX_TRANSIENT_BYTES := 1024 * 1024
  const MAX_TASK_TOOLS := 128

  datatype Mode = Persistent | NoMemory
  datatype Protocol = Agent | Memory

  datatype Tool = Tool(name: string, schema: bool)
  datatype Task = Task(id: string, tools: Option<seq<Tool>>)
  datatype Call = Call(id: string, tool: string)

  /** One entry of the transient list and its JSON size. */
  datatype Step = Called(call: Call, bytes: nat) | Said(bytes: nat) | Returned(call: Call, bytes: nat)

  datatype Observation = Observation(
    id: string, callId: Option<string>, tool: Option<string>, time: Option<nat>, content: string, bytes: nat)

  /** What the model answers: the tools it called by alias, or else a reply that parses. */
  datatype Output = Output(calls: seq<string>, reply: bool, bytes: nat)

  datatype Operation =
    | Audit(empty: bool)
    | Reset
    | Observe(observation: Option<Observation>)
    | Maintain
    | SessionBoundary
    | Retrieve(valid: bool)
    | Respond(valid: bool)
    | Act(task: Task, continuation: bool)

  datatype Request = Request(id: string, protocol: Protocol, time: Option<nat>, operation: Operation)

  /** What Brain and the model answer to one request: the clock, the boundary before and after
      it, its recall, its model call, and its own Brain call. */
  datatype Answers = Answers(
    clock: bool, before: bool, after: bool, recall: Option<string>, output: Option<Output>, brain: bool)

  function CallId(r: Request): string { "bot_" + r.id }

  /** A JSON array's length: two brackets, and a comma between entries. */
  function Size(steps: seq<Step>): nat {
    if steps == [] then 2
    else if |steps| == 1 then 2 + steps[0].bytes
    else Size(steps[..|steps| - 1]) + 1 + steps[|steps| - 1].bytes
  }

  // ---------------------------------------------------------------- runner tools

  function Alias(i: nat): string { "mib_tool_" + Text.Decimal(i) }

  predicate ToolsFit(tools: seq<Tool>) {
    && |tools| <= MAX_TASK_TOOLS
    && (forall i :: 0 <= i < |tools| ==> tools[i].name != "" && tools[i].schema)
    && (forall i, j :: 0 <= i < j < |tools| ==> tools[i].name != tools[j].name)
  }

  predicate Fits(task: Task) { task.tools.Some? && ToolsFit(task.tools.value) }

  /** The runner name an alias stands for. */
  function RunnerName(tools: seq<Tool>, alias: string): Option<string> {
    if tools == [] then None
    else if alias == Alias(|tools| - 1) then Some(tools[|tools| - 1].name)
    else RunnerName(tools[..|tools| - 1], alias)
  }

  lemma AliasesDiffer(i: nat, j: nat)
    requires Alias(i) == Alias(j)
    ensures i == j
  {
    assert Alias(i)[9..] == Text.Decimal(i) && Alias(j)[9..] == Text.Decimal(j);
    Text.DecimalRoundTrip(i);
    Text.DecimalRoundTrip(j);
  }

  /** Each tool answers to its alias, and nothing else does. */
  lemma {:induction false} AliasNamesTool(tools: seq<Tool>, i: nat)
    requires i < |tools|
    ensures RunnerName(tools, Alias(i)) == Some(tools[i].name)
  {
    if Alias(i) == Alias(|tools| - 1) {
      AliasesDiffer(i, |tools| - 1);
    } else {
      AliasNamesTool(tools[..|tools| - 1], i);
    }
  }

  lemma {:induction false} NamedByAlias(tools: seq<Tool>, alias: string) returns (i: nat)
    requires RunnerName(tools, alias).Some?
    ensures i < |tools| && alias == Alias(i) && RunnerName(tools, alias) == Some(tools[i].name)
  {
    if alias == Alias(|tools| - 1) {
      i := |tools| - 1;
    } else {
      i := NamedByAlias(tools[..|tools| - 1], alias);
    }
  }

  /** The registry a task's tools make, or `None` where they are refused. */
  method TaskTools(task: Task) returns (names: Option<map<string, string>>)
    ensures names.Some? <==> Fits(task)
    ensures names.Some? ==> forall alias :: Lookup(names.value, alias) == RunnerName(task.tools.value, alias)
  {
    if task.tools.None? || |task.tools.value| > MAX_TASK_TOOLS {
      return None;
    }
    var tools := task.tools.value;
    var runnerNames: map<string, string> := map[];
    for k := 0 to |tools|
      invariant forall alias :: Lookup(runnerNames, alias) == RunnerName(tools[..k], alias)
      invariant ToolsFit(tools[..k])
    {
      assert tools[..k + 1][..k] == tools[..k];
      var t := tools[k];
      if t.name == "" {
        assert tools[k].name == "";
        return None;
      }
      if t.name in runnerNames.Values {
        NameIsTaken(tools[..k], runnerNames, t.name);
        return None;
      }
      NameIsFree(tools[..k], runnerNames, t.name);
      runnerNames := runnerNames[Alias(k) := t.name];
      if !t.schema {
        return None;
      }
    }
    assert tools[..|tools|] == tools;
    return Some(runnerNames);
  }

  function Lookup(names: map<string, string>, alias: string): Option<string> {
    if alias in names then Some(names[alias]) else None
  }

  lemma NameIsTaken(tools: seq<Tool>, names: map<string, string>, name: string)
    requires forall alias :: Lookup(names, alias) == RunnerName(tools, alias)
    requires name in names.Values
    ensures exists i :: 0 <= i < |tools| && tools[i].name == name
  {
    var alias :| alias in names && names[alias] == name;
    assert Lookup(names, alias) == Some(name);
    var i := NamedByAlias(tools, alias);
    assert tools[i].name == name;
  }

  lemma NameIsFree(tools: seq<Tool>, names: map<string, string>, name: string)
    requires forall alias :: Lookup(names, alias) == RunnerName(tools, alias)
    requires name !in names.Values
    ensures forall i :: 0 <= i < |tools| ==> tools[i].name != name
  {
    forall i | 0 <= i < |tools|
      ensures tools[i].name != name
    {
      AliasNamesTool(tools, i);
      assert Lookup(names, Alias(i)) == Some(tools[i].name);
    }
  }

  // ---------------------------------------------------------------- the story of a run

  datatype Chapter = Chapter(task: Task, steps: seq<Step>)

  /** A model call made for a task: the memory it saw, and how many formations Brain had
      been given when that memory was recalled and when the model was asked. */
  datatype Asked = Asked(memory: string, recalledAt: nat, version: nat)

  /** `formed` are the chapters handed to Brain, `taken` the observations that had an effect,
      and `version` counts everything handed to Brain to remember. `Story` tells a run by its
      chapters: every task it began and every step that task took. The fields the host keeps
      are what `Run` holds, and are read off the story. An answer of `false` or `None` is a
      call that failed, timed out or was cancelled: it ends the run. */
  datatype Story = Story(
    live: bool, chapters: seq<Chapter>, open: bool, memory: Option<string>, recalledAt: nat, time: nat,
    seen: map<string, Observation>, formed: seq<Chapter>, taken: seq<string>, version: nat, asked: seq<Asked>)

  function Beginning(time: nat): Story { Story(true, [], false, None, 0, time, map[], [], [], 0, []) }

  predicate Told(s: Story) { s.open ==> s.chapters != [] }

  function Current(s: Story): seq<Step> {
    if s.open && s.chapters != [] then s.chapters[|s.chapters| - 1].steps else []
  }

  function ActiveTask(s: Story): Option<Task> {
    if s.open && s.chapters != [] then Some(s.chapters[|s.chapters| - 1].task) else None
  }

  function Unanswered(steps: seq<Step>): Option<Call> {
    if steps != [] && steps[|steps| - 1].Called? then Some(steps[|steps| - 1].call) else None
  }

  function Pending(s: Story): Option<Call> { Unanswered(Current(s)) }

  function Fail(s: Story): Story { s.(live := false) }

  function Require(s: Story, holds: bool): Story { if holds then s else Fail(s) }

  function Push(s: Story, step: Step): Story {
    if !s.live || s.chapters == [] then s
    else
      var k := |s.chapters| - 1;
      s.(chapters := s.chapters[k := s.chapters[k].(steps := s.chapters[k].steps + [step])])
  }

  function CheckTransient(s: Story): Story { Require(s, Size(Current(s)) <= MAX_TRANSIENT_BYTES) }

  function Advance(s: Story, time: Option<nat>, clock: bool): Story {
    if time.None? then s else if clock then s.(time := time.value) else Fail(s)
  }

  function FinishTask(s: Story, mode: Mode, fine: bool): Story {
    if !s.live || Pending(s).Some? then Fail(s)
    else
      var forms := mode.Persistent? && ActiveTask(s).Some? && Current(s) != [];
      var s1 := if forms then s.(formed := s.formed + [s.chapters[|s.chapters| - 1]], version := s.version + 1) else s;
      if forms && !fine then Fail(s1)
      else Require(s1.(open := false, memory := None), mode.Persistent? || fine)
  }

  function OpenTask(s: Story, task: Task): Story {
    if !s.live then s else s.(chapters := s.chapters + [Chapter(task, [])], open := true)
  }

  function Recalled(mode: Mode, recall: Option<string>): Option<string> {
    if mode.NoMemory? then Some("") else recall
  }

  function Remember(s: Story, mode: Mode, recall: Option<string>): Story {
    if !s.live || s.memory.Some? then s
    else if Recalled(mode, recall).None? then Fail(s)
    else s.(memory := Recalled(mode, recall), recalledAt := s.version)
  }

  function Ask(s: Story): Story {
    if !s.live || s.memory.None? then s
    else s.(asked := s.asked + [Asked(s.memory.value, s.recalledAt, s.version)])
  }

  /** The step a model's answer is, where its task allows one. */
  function Move(task: Task, output: Option<Output>, id: string): Option<Step> {
    if output.None? then None
    else if output.value.calls == [] then (if output.value.reply then Some(Said(output.value.bytes)) else None)
    else if |output.value.calls| > 1 || task.tools.None? then None
    else
      var name := RunnerName(task.tools.value, output.value.calls[0]);
      if name.None? then None else Some(Called(Call(id, name.value), output.value.bytes))
  }

  function Answer(s: Story, mode: Mode, step: Option<Step>, a: Answers): Story {
    if !s.live || step.None? then Fail(s)
    else
      var s1 := CheckTransient(Push(s, step.value));
      if step.value.Said? then FinishTask(s1, mode, a.after) else s1
  }

  function Take(s: Story, mode: Mode, task: Task, id: string, a: Answers): Story {
    Answer(Ask(Remember(s, mode, a.recall)), mode, Move(task, a.output, id), a)
  }

  function DoAct(s: Story, mode: Mode, task: Task, continuation: bool, id: string, a: Answers): Story {
    if task.id == "" then Fail(s)
    else if continuation then
      if ActiveTask(s).None? || ActiveTask(s).value.id != task.id || Pending(s).Some? || !Fits(ActiveTask(s).value)
      then Fail(s)
      else Take(s, mode, ActiveTask(s).value, id, a)
    else if !Fits(task) then Fail(s)
    else Take(OpenTask(FinishTask(s, mode, a.before), task), mode, task, id, a)
  }

  function Absorb(s: Story, mode: Mode, o: Observation, a: Answers): Story {
    if o.callId.Some? && ActiveTask(s).Some? then
      var expected := Pending(s);
      if expected.None? || o.callId != Some(expected.value.id) || o.tool != Some(expected.value.tool) then Fail(s)
      else Require(Push(s.(taken := s.taken + [o.id]), Returned(expected.value, o.bytes)), a.brain)
    else if mode.Persistent? then
      var s1 := s.(taken := s.taken + [o.id], version := s.version + 1);
      if a.brain then s1.(memory := None) else Fail(s1)
    else s
  }

  function See(s: Story, o: Observation): Story {
    if !s.live || !CheckTransient(s).live then Fail(s) else s.(seen := s.seen[o.id := o])
  }

  function DoObserve(s: Story, mode: Mode, observation: Option<Observation>, timed: bool, a: Answers): Story {
    if observation.None? || observation.value.id == "" then Fail(s)
    else
      var o := observation.value;
      var s1 := if timed then Require(s, o.time.None? || o.time.value == s.time) else Advance(s, o.time, a.clock);
      if !s1.live then s1
      else if o.id in s1.seen then Require(s1, s1.seen[o.id] == o)
      else See(Absorb(s1, mode, o, a), o)
  }

  function DoMaintain(s: Story, mode: Mode, a: Answers): Story {
    var s1 := FinishTask(s, mode, a.before);
    if !s1.live || mode.NoMemory? then s1
    else Require(s1.(version := s1.version + 1), a.brain)
  }

  /** A response: a recall, and an answer that calls no tool. */
  predicate Replies(mode: Mode, a: Answers) {
    Recalled(mode, a.recall).Some? && a.output.Some? && a.output.value.calls == [] && a.output.value.reply
  }

  function Serve(s: Story, mode: Mode, r: Request, a: Answers): Story {
    match r.operation
    case Audit(_) => s
    case Reset => s
    case Observe(observation) => DoObserve(s, mode, observation, r.time.Some?, a)
    case Maintain => DoMaintain(s, mode, a)
    case SessionBoundary => Require(FinishTask(s, mode, a.before), mode.NoMemory? || a.brain)
    case Retrieve(valid) => Require(s, r.protocol.Memory? && valid && Recalled(mode, a.recall).Some?)
    case Respond(valid) =>
      if r.protocol.Agent? && valid then Require(FinishTask(s, mode, a.before), Replies(mode, a)) else Fail(s)
    case Act(task, continuation) =>
      if r.protocol.Agent? then DoAct(s, mode, task, continuation, CallId(r), a) else Fail(s)
  }

  function Perform(s: Story, mode: Mode, r: Request, a: Answers): Story {
    if !s.live then s
    else if r.operation.Audit? then Require(s, r.operation.empty && a.brain)
    else
      var s1 := Advance(s, r.time, a.clock);
      if s1.live then Serve(s1, mode, r, a) else s1
  }

  datatype Round = Round(request: Request, answers: Answers)

  function Exec(mode: Mode, time: nat, rounds: seq<Round>): Story {
    if rounds == [] then Beginning(time)
    else
      var last := rounds[|rounds| - 1];
      Perform(Exec(mode, time, rounds[..|rounds| - 1]), mode, last.request, last.answers)
  }

  // ---------------------------------------------------------------- what every run keeps

  predicate Registered(task: Task, name: string) {
    task.tools.Some? && exists i :: 0 <= i < |task.tools.value| && task.tools.value[i].name == name
  }

  /** Calls and their own results take turns; only a reply may stand last in a call's place. */
  predicate InTurn(c: Chapter, i: nat)
    requires i < |c.steps|
  {
    if i % 2 == 1 then c.steps[i].Returned? && c.steps[i - 1].Called? && c.steps[i].call == c.steps[i - 1].call
    else (c.steps[i].Called? && Registered(c.task, c.steps[i].call.tool)) || (c.steps[i].Said? && i == |c.steps| - 1)
  }

  predicate Alternates(c: Chapter) { forall i :: 0 <= i < |c.steps| ==> InTurn(c, i) }

  /** A chapter a boundary may close: something happened in it, and no call is left open. */
  predicate Whole(c: Chapter) { Alternates(c) && c.steps != [] && Unanswered(c.steps).None? }

  function ClosedCount(s: Story): nat { if s.open && s.chapters != [] then |s.chapters| - 1 else |s.chapters| }

  ghost predicate WellTold(s: Story) {
    && Told(s)
    && (forall k :: 0 <= k < ClosedCount(s) ==> Whole(s.chapters[k]))
    && (s.open ==> Alternates(s.chapters[|s.chapters| - 1]))
  }

  /** Brain holds the closed chapters; when the handing over itself failed, also the last. */
  ghost predicate Formed(s: Story, mode: Mode) {
    if mode.NoMemory? then s.formed == []
    else s.formed == s.chapters[..ClosedCount(s)] || (!s.live && s.formed == s.chapters)
  }

  ghost predicate Fresh(s: Story) {
    && (forall k :: 0 <= k < |s.asked| ==> s.asked[k].recalledAt == s.asked[k].version)
    && (s.live && s.memory.Some? ==> s.open && s.recalledAt == s.version)
  }

  ghost predicate TakenOnce(s: Story) {
    && (forall i, j :: 0 <= i < j < |s.taken| ==> s.taken[i] != s.taken[j])
    && (s.live ==> forall i :: 0 <= i < |s.taken| ==> s.taken[i] in s.seen)
  }

  ghost predicate Sound(s: Story, mode: Mode) {
    WellTold(s) && Formed(s, mode) && Fresh(s) && TakenOnce(s)
  }

  /** What holds besides between requests. */
  ghost predicate Rested(s: Story) {
    s.live ==> Size(Current(s)) <= MAX_TRANSIENT_BYTES && (s.open ==> Current(s) != [] && !Current(s)[|Current(s)| - 1].Said?)
  }

  ghost predicate Inv(s: Story, mode: Mode) { Sound(s, mode) && Rested(s) }

  lemma FailKeeps(s: Story, mode: Mode)
    requires Sound(s, mode)
    ensures Inv(Fail(s), mode)
  {
  }

  lemma AdvanceKeeps(s: Story, mode: Mode, time: Option<nat>, clock: bool)
    requires Inv(s, mode)
    ensures Inv(Advance(s, time, clock), mode)
  {
  }

  lemma RecallKeeps(s: Story, mode: Mode, recall: Option<string>)
    requires Sound(s, mode) && (s.live ==> s.open)
    ensures var s' := Ask(Remember(s, mode, recall));
      Sound(s', mode) && s'.open == s.open && s'.chapters == s.chapters && (s'.live ==> s.live)
  {
  }

  lemma FinishTaskKeeps(s: Story, mode: Mode, fine: bool)
    requires Sound(s, mode) && (s.live && s.open ==> Current(s) != [])
    ensures Inv(FinishTask(s, mode, fine), mode)
    ensures FinishTask(s, mode, fine).live ==> !FinishTask(s, mode, fine).open
  {
    var s' := FinishTask(s, mode, fine);
    if s.live && Pending(s).None? && s.open {
      assert s.chapters == s.chapters[..ClosedCount(s)] + [s.chapters[|s.chapters| - 1]];
    }
  }

  lemma PushKeeps(s: Story, mode: Mode, step: Step)
    requires Sound(s, mode) && s.live && s.open
    requires Alternates(s.chapters[|s.chapters| - 1].(steps := Current(s) + [step]))
    ensures Sound(Push(s, step), mode) && Push(s, step).live && Push(s, step).open
    ensures Current(Push(s, step)) == Current(s) + [step]
  {
    assert Push(s, step).chapters[..ClosedCount(s)] == s.chapters[..ClosedCount(s)];
  }

  lemma StepExtends(task: Task, steps: seq<Step>, step: Step)
    requires Alternates(Chapter(task, steps))
    requires match step
             case Returned(call, _) => Unanswered(steps) == Some(call)
             case Called(call, _) => Registered(task, call.tool) && (steps == [] || steps[|steps| - 1].Returned?)
             case Said(_) => steps == [] || steps[|steps| - 1].Returned?
    ensures Alternates(Chapter(task, steps + [step]))
  {
    var c, c' := Chapter(task, steps), Chapter(task, steps + [step]);
    if steps != [] {
      assert InTurn(c, |steps| - 1);
    }
    forall i | 0 <= i < |c'.steps|
      ensures InTurn(c', i)
    {
      if i < |steps| {
        assert InTurn(c, i);
      }
    }
  }

  lemma MoveFits(task: Task, output: Option<Output>, id: string, steps: seq<Step>)
    requires Move(task, output, id).Some? && Alternates(Chapter(task, steps))
    requires steps == [] || steps[|steps| - 1].Returned?
    ensures Alternates(Chapter(task, steps + [Move(task, output, id).value]))
  {
    if Move(task, output, id).value.Called? {
      var i := NamedByAlias(task.tools.value, output.value.calls[0]);
    }
    StepExtends(task, steps, Move(task, output, id).value);
  }

  lemma TakeKeeps(s: Story, mode: Mode, task: Task, id: string, a: Answers)
    requires Sound(s, mode)
    requires s.live ==> s.open && ActiveTask(s) == Some(task) && (Current(s) == [] || Current(s)[|Current(s)| - 1].Returned?)
    ensures Inv(Take(s, mode, task, id, a), mode)
  {
    var s1 := Ask(Remember(s, mode, a.recall));
    RecallKeeps(s, mode, a.recall);
    var step := Move(task, a.output, id);
    if !s1.live || step.None? {
      FailKeeps(s1, mode);
    } else {
      assert WellTold(s1);
      MoveFits(task, a.output, id, Current(s1));
      PushKeeps(s1, mode, step.value);
      hide WellTold, Formed, Fresh, TakenOnce, Move, Ask, Remember, Push, FinishTask, Size;
      var s2 := Push(s1, step.value);
      FailKeeps(s2, mode);
      if step.value.Said? {
        FinishTaskKeeps(CheckTransient(s2), mode, a.after);
      }
    }
  }

  lemma OpenTaskKeeps(s: Story, mode: Mode, task: Task)
    requires Inv(s, mode) && (s.live ==> !s.open)
    ensures Sound(OpenTask(s, task), mode)
    ensures s.live ==> OpenTask(s, task).open && Current(OpenTask(s, task)) == []
                       && ActiveTask(OpenTask(s, task)) == Some(task)
  {
    assert s.live ==> OpenTask(s, task).chapters[..|s.chapters|] == s.chapters;
  }

  lemma DoActKeeps(s: Story, mode: Mode, task: Task, continuation: bool, id: string, a: Answers)
    requires Inv(s, mode) && s.live
    ensures Inv(DoAct(s, mode, task, continuation, id, a), mode)
  {
    hide Take, WellTold, Formed, Fresh, TakenOnce, Fits, Size;
    FailKeeps(s, mode);
    if !continuation {
      FinishTaskKeeps(s, mode, a.before);
      OpenTaskKeeps(FinishTask(s, mode, a.before), mode, task);
      TakeKeeps(OpenTask(FinishTask(s, mode, a.before), task), mode, task, id, a);
    } else if ActiveTask(s).Some? && Pending(s).None? {
      TakeKeeps(s, mode, ActiveTask(s).value, id, a);
    }
  }

  lemma AbsorbKeeps(s: Story, mode: Mode, o: Observation, a: Answers)
    requires Inv(s, mode) && s.live && o.id !in s.seen
    ensures var s' := Absorb(s, mode, o, a);
      && WellTold(s') && Formed(s', mode) && Fresh(s')
      && TakenOnce(s'.(seen := s.seen[o.id := o])) && (s'.live ==> s'.seen == s.seen)
      && (s'.live && s'.open ==> Current(s') != [] && !Current(s')[|Current(s')| - 1].Said?)
      && (!s'.live ==> TakenOnce(s'))
  {
    if o.callId.Some? && ActiveTask(s).Some? && Pending(s).Some? {
      var step := Returned(Pending(s).value, o.bytes);
      StepExtends(ActiveTask(s).value, Current(s), step);
      PushKeeps(s, mode, step);
    }
  }

  lemma SeeKeeps(s: Story, seen: map<string, Observation>, mode: Mode, o: Observation)
    requires WellTold(s) && Formed(s, mode) && Fresh(s) && TakenOnce(s.(seen := seen[o.id := o]))
    requires s.live ==> s.seen == seen
    requires s.live && s.open ==> Current(s) != [] && !Current(s)[|Current(s)| - 1].Said?
    requires !s.live ==> TakenOnce(s)
    ensures Inv(See(s, o), mode)
  {
  }

  lemma DoObserveKeeps(s: Story, mode: Mode, observation: Option<Observation>, timed: bool, a: Answers)
    requires Inv(s, mode) && s.live
    ensures Inv(DoObserve(s, mode, observation, timed, a), mode)
  {
    hide Absorb, WellTold, Formed, Fresh, TakenOnce, Size;
    FailKeeps(s, mode);
    if observation.Some? && observation.value.id != "" {
      var o := observation.value;
      var s1 := if timed then Require(s, o.time.None? || o.time.value == s.time) else Advance(s, o.time, a.clock);
      AdvanceKeeps(s, mode, o.time, a.clock);
      FailKeeps(s, mode);
      if s1.live && o.id in s1.seen {
        FailKeeps(s1, mode);
      } else if s1.live {
        AbsorbKeeps(s1, mode, o, a);
        SeeKeeps(Absorb(s1, mode, o, a), s1.seen, mode, o);
      }
    }
  }

  lemma DoMaintainKeeps(s: Story, mode: Mode, a: Answers)
    requires Inv(s, mode) && s.live
    ensures Inv(DoMaintain(s, mode, a), mode)
  {
    FinishTaskKeeps(s, mode, a.before);
    hide FinishTask;
    assert Fresh(FinishTask(s, mode, a.before));
  }

  lemma PerformKeeps(s: Story, mode: Mode, r: Request, a: Answers)
    requires Inv(s, mode)
    ensures Inv(Perform(s, mode, r, a), mode)
  {
    hide DoAct, DoObserve, DoMaintain, FinishTask, WellTold, Formed, Fresh, TakenOnce, Size;
    var s1 := Advance(s, r.time, a.clock);
    AdvanceKeeps(s, mode, r.time, a.clock);
    FailKeeps(s, mode);
    FailKeeps(s1, mode);
    if s.live && s1.live {
      var s2 := FinishTask(s1, mode, a.before);
      FinishTaskKeeps(s1, mode, a.before);
      FailKeeps(s2, mode);
      if r.operation.Maintain? {
        DoMaintainKeeps(s1, mode, a);
      } else if r.operation.Observe? {
        DoObserveKeeps(s1, mode, r.operation.observation, r.time.Some?, a);
      } else if r.operation.Act? {
        DoActKeeps(s1, mode, r.operation.task, r.operation.continuation, CallId(r), a);
      }
    }
  }

  lemma {:induction false} InvHolds(mode: Mode, time: nat, rounds: seq<Round>)
    ensures Inv(Exec(mode, time, rounds), mode)
  {
    if rounds != [] {
      InvHolds(mode, time, rounds[..|rounds| - 1]);
      var last := rounds[|rounds| - 1];
      PerformKeeps(Exec(mode, time, rounds[..|rounds| - 1]), mode, last.request, last.answers);
    }
  }

  /** Between the requests of a live run its fields agree: steps exactly while a task is
      active, a pending tool exactly when the last step is a call, and memory only with a task. */
  lemma {:induction false} FieldsAgree(mode: Mode, time: nat, rounds: seq<Round>)
    requires Exec(mode, time, rounds).live
    ensures var s := Exec(mode, time, rounds);
      && (ActiveTask(s).None? <==> Current(s) == [])
      && (s.memory.Some? ==> ActiveTask(s).Some?)
      && (Pending(s).Some? <==> ActiveTask(s).Some? && !Current(s)[|Current(s)| - 1].Returned?)
      && (Pending(s).Some? ==> Registered(ActiveTask(s).value, Pending(s).value.tool))
      && Size(Current(s)) <= MAX_TRANSIENT_BYTES
  {
    InvHolds(mode, time, rounds);
    var s := Exec(mode, time, rounds);
    if s.open {
      assert InTurn(s.chapters[|s.chapters| - 1], |Current(s)| - 1);
    }
  }

  /** In every run, live or ended, a step of a task is a call to one of its tools, the result
      of the call just before it, or the reply that ends it. */
  lemma {:induction false} StepsTakeTurns(mode: Mode, time: nat, rounds: seq<Round>, k: nat, i: nat)
    requires k < |Exec(mode, time, rounds).chapters| && i < |Exec(mode, time, rounds).chapters[k].steps|
    ensures InTurn(Exec(mode, time, rounds).chapters[k], i)
  {
    InvHolds(mode, time, rounds);
    var s := Exec(mode, time, rounds);
    assert k < ClosedCount(s) ==> Whole(s.chapters[k]);
  }

  /** A persistent run hands each task to Brain once, whole and in order, when it ends: after
      every request of a live run what Brain was handed is exactly the ended tasks. A run whose
      handing over failed has handed over its last task as well, and never does so again. A run
      without memory hands over none. No boundary falls on an unanswered call. */
  lemma {:induction false} FormedExactlyOnce(mode: Mode, time: nat, rounds: seq<Round>)
    ensures var s := Exec(mode, time, rounds);
      && (mode.NoMemory? ==> s.formed == [])
      && (mode.Persistent? ==> s.formed <= s.chapters && |s.formed| >= ClosedCount(s))
      && (mode.Persistent? && s.live ==> s.formed == if ActiveTask(s).Some? then s.chapters[..|s.chapters| - 1] else s.chapters)
      && (forall k :: 0 <= k < ClosedCount(s) ==> s.chapters[k].steps != [] && Unanswered(s.chapters[k].steps).None?)
  {
    InvHolds(mode, time, rounds);
    var s := Exec(mode, time, rounds);
    assert forall k :: 0 <= k < ClosedCount(s) ==> Whole(s.chapters[k]);
    assert s.chapters[..|s.chapters|] == s.chapters;
  }

  /** A model asked to act sees a recall made after everything Brain had been given by then. */
  lemma {:induction false} MemoryIsFresh(mode: Mode, time: nat, rounds: seq<Round>, k: nat)
    requires k < |Exec(mode, time, rounds).asked|
    ensures Exec(mode, time, rounds).asked[k].recalledAt == Exec(mode, time, rounds).asked[k].version
  {
    InvHolds(mode, time, rounds);
  }

  /** An observation has its effect at most once, however often it is sent. */
  lemma {:induction false} ObservationsCountOnce(mode: Mode, time: nat, rounds: seq<Round>, i: nat, j: nat)
    requires i < j < |Exec(mode, time, rounds).taken|
    ensures Exec(mode, time, rounds).taken[i] != Exec(mode, time, rounds).taken[j]
  {
    InvHolds(mode, time, rounds);
  }

  /** What has ended stays as it was: later requests only add to it. */
  lemma {:induction false} EndedTasksStay(mode: Mode, time: nat, rounds: seq<Round>, more: seq<Round>)
    ensures var s, s' := Exec(mode, time, rounds), Exec(mode, time, rounds + more);
      && s.chapters[..ClosedCount(s)] <= s'.chapters[..ClosedCount(s')]
      && s.formed <= s'.formed && (s'.live ==> s.live)
  {
    if more == [] {
      assert rounds + more == rounds;
    } else {
      var all := rounds + more;
      assert all[..|all| - 1] == rounds + more[..|more| - 1];
      EndedTasksStay(mode, time, rounds, more[..|more| - 1]);
      var last := all[|all| - 1];
      PerformAdds(Exec(mode, time, all[..|all| - 1]), mode, last.request, last.answers);
    }
  }

  predicate Adds(s: Story, s': Story) {
    && ClosedCount(s) <= ClosedCount(s')
    && s.chapters[..ClosedCount(s)] <= s'.chapters[..ClosedCount(s')]
    && s.formed <= s'.formed && (s'.live ==> s.live)
  }

  lemma PushAdds(s: Story, step: Step)
    requires s.open
    ensures Adds(s, Push(s, step))
  {
  }

  lemma FinishTaskAdds(s: Story, mode: Mode, fine: bool)
    ensures Adds(s, FinishTask(s, mode, fine))
  {
  }

  lemma FinishedIsClosed(s: Story, mode: Mode, fine: bool)
    ensures FinishTask(s, mode, fine).live ==> !FinishTask(s, mode, fine).open
  {
  }

  lemma AddsSelf(s: Story)
    ensures Adds(s, s)
  {
  }

  lemma AddsOn(s: Story, s1: Story, s2: Story)
    requires Adds(s, s1) && Adds(s1, s2)
    ensures Adds(s, s2)
  {
  }

  lemma AddsStill(s: Story, s1: Story, s2: Story)
    requires Adds(s, s1) && s2.chapters == s1.chapters && s2.open == s1.open && s2.formed == s1.formed
    requires s2.live ==> s1.live
    ensures Adds(s, s2)
  {
  }

  lemma TakeAdds(s: Story, mode: Mode, task: Task, id: string, a: Answers)
    requires s.live ==> s.open
    ensures Adds(s, Take(s, mode, task, id, a))
  {
    var s1 := Ask(Remember(s, mode, a.recall));
    assert Adds(s, s1);
    AddsStill(s, s1, Fail(s1));
    var step := Move(task, a.output, id);
    if s1.live && step.Some? {
      var s2 := CheckTransient(Push(s1, step.value));
      assert Adds(s1, s2) by {
        PushAdds(s1, step.value);
      }
      FinishTaskAdds(s2, mode, a.after);
      hide FinishTask, Move, Push, Adds, Ask, Remember, Size;
      AddsOn(s, s1, s2);
      AddsOn(s, s2, FinishTask(s2, mode, a.after));
    }
  }

  lemma DoActAdds(s: Story, mode: Mode, task: Task, continuation: bool, id: string, a: Answers)
    ensures Adds(s, DoAct(s, mode, task, continuation, id, a))
  {
    assert Adds(s, Fail(s));
    if !continuation {
      var s1 := FinishTask(s, mode, a.before);
      FinishTaskAdds(s, mode, a.before);
      FinishedIsClosed(s, mode, a.before);
      assert Adds(s1, OpenTask(s1, task));
      TakeAdds(OpenTask(s1, task), mode, task, id, a);
      hide Take, FinishTask, Fits, Adds;
      AddsOn(s, s1, OpenTask(s1, task));
      AddsOn(s, OpenTask(s1, task), Take(OpenTask(s1, task), mode, task, id, a));
    } else if ActiveTask(s).Some? {
      TakeAdds(s, mode, ActiveTask(s).value, id, a);
      hide Take, Fits, Adds;
    }
  }

  lemma AbsorbAdds(s: Story, mode: Mode, o: Observation, a: Answers)
    ensures Adds(s, Absorb(s, mode, o, a))
  {
    if ActiveTask(s).Some? && Pending(s).Some? {
      PushAdds(s.(taken := s.taken + [o.id]), Returned(Pending(s).value, o.bytes));
    }
    hide Push;
  }

  lemma DoObserveAdds(s: Story, mode: Mode, observation: Option<Observation>, timed: bool, a: Answers)
    ensures Adds(s, DoObserve(s, mode, observation, timed, a))
  {
    hide Size, Absorb, Adds, Current;
    AddsSelf(s);
    AddsStill(s, s, Fail(s));
    if observation.Some? {
      var o := observation.value;
      var s1 := if timed then Require(s, o.time.None? || o.time.value == s.time) else Advance(s, o.time, a.clock);
      var s2 := Absorb(s1, mode, o, a);
      AbsorbAdds(s1, mode, o, a);
      AddsStill(s, s, s1);
      AddsStill(s, s1, Fail(s1));
      AddsOn(s, s1, s2);
      AddsStill(s, s2, See(s2, o));
    }
  }

  lemma BoundaryAdds(s: Story, mode: Mode, fine: bool, also: bool)
    ensures var s' := FinishTask(s, mode, fine);
      Adds(s, s') && Adds(s, Require(s', also)) && Adds(s, Require(s'.(version := s'.version + 1), also))
  {
    hide FinishTask, Adds;
    var s' := FinishTask(s, mode, fine);
    FinishTaskAdds(s, mode, fine);
    AddsStill(s, s', Require(s', also));
    AddsStill(s, s', Require(s'.(version := s'.version + 1), also));
  }

  lemma ServeAdds(s: Story, mode: Mode, r: Request, a: Answers)
    ensures Adds(s, Serve(s, mode, r, a))
  {
    hide FinishTask, DoAct, DoObserve, Adds, Size;
    AddsSelf(s);
    AddsStill(s, s, Fail(s));
    match r.operation
    case Maintain => BoundaryAdds(s, mode, a.before, a.brain);
    case SessionBoundary => BoundaryAdds(s, mode, a.before, mode.NoMemory? || a.brain);
    case Respond(_) => BoundaryAdds(s, mode, a.before, Replies(mode, a));
    case Act(task, continuation) => DoActAdds(s, mode, task, continuation, CallId(r), a);
    case Observe(observation) => DoObserveAdds(s, mode, observation, r.time.Some?, a);
    case _ =>
  }

  lemma PerformAdds(s: Story, mode: Mode, r: Request, a: Answers)
    ensures Adds(s, Perform(s, mode, r, a))
  {
    hide Serve, Adds;
    var s1 := Advance(s, r.time, a.clock);
    AddsSelf(s);
    AddsStill(s, s, Fail(s));
    AddsStill(s, s, s1);
    ServeAdds(s1, mode, r, a);
    AddsOn(s, s1, Serve(s1, mode, r, a));
  }

  // ---------------------------------------------------------------- the host's code

  /** The state a run keeps under its lock. `story` is what `Perform` makes of the requests. */
  class Run {
    const mode: Mode
    var transient: seq<Step>
    var activeTask: Option<Task>
    var pendingTool: Option<Call>
    var taskMemory: Option<string>
    var seenObservations: map<string, Observation>
    var businessTime: nat
    ghost var story: Story

    ghost predicate Valid()
      reads this
    {
      && Told(story)
      && transient == Current(story) && activeTask == ActiveTask(story) && pendingTool == Pending(story)
      && taskMemory == story.memory && seenObservations == story.seen && businessTime == story.time
    }

    constructor (mode: Mode, now: nat)
      ensures Valid() && story == Beginning(now) && this.mode == mode
    {
      this.mode := mode;
      transient, activeTask, pendingTool, taskMemory, seenObservations, businessTime := [], None, None, None, map[], now;
      story := Beginning(now);
    }

    ghost method Demand(ok: bool)
      requires Valid()
      modifies this`story
      ensures Valid() && story == Require(old(story), ok)
    {
      story := Require(story, ok);
    }

    method ClearTask()
      requires Valid()
      modifies this
      ensures Valid() && story == old(story).(open := false, memory := None)
    {
      transient, activeTask, pendingTool, taskMemory := [], None, None, None;
      story := story.(open := false, memory := None);
    }

    method PushStep(step: Step)
      requires Valid() && story.live && activeTask.Some?
      modifies this
      ensures Valid() && story == Push(old(story), step) && story.live
      ensures activeTask == old(activeTask) && taskMemory == old(taskMemory)
      ensures seenObservations == old(seenObservations) && businessTime == old(businessTime)
    {
      transient := transient + [step];
      pendingTool := if step.Called? then Some(step.call) else None;
      story := Push(story, step);
    }

    method FinishTaskBoundary(fine: bool) returns (ok: bool)
      requires Valid() && story.live
      modifies this
      ensures Valid() && story == FinishTask(old(story), mode, fine) && ok == story.live
    {
      if pendingTool.Some? {
        Demand(false);
        return false;
      }
      if mode.Persistent? && activeTask.Some? && transient != [] {
        story := story.(formed := story.formed + [Chapter(activeTask.value, transient)], version := story.version + 1);
        if !fine {
          Demand(false);
          return false;
        }
      }
      ClearTask();
      ok := mode.Persistent? || fine;
      Demand(ok);
    }

    method AdvanceTo(time: nat, clock: bool) returns (ok: bool)
      requires Valid() && story.live
      modifies this
      ensures Valid() && story == Advance(old(story), Some(time), clock) && ok == story.live
    {
      if clock {
        businessTime := time;
      }
      story := Advance(story, Some(time), clock);
      ok := clock;
    }

    method ObserveOne(observation: Option<Observation>, timed: bool, a: Answers) returns (ok: bool)
      requires Valid() && story.live
      modifies this
      ensures Valid() && story == DoObserve(old(story), mode, observation, timed, a) && ok == story.live
    {
      hide Absorb, See;
      if observation.None? || observation.value.id == "" {
        Demand(false);
        return false;
      }
      var o := observation.value;
      if o.time.Some? {
        if !timed {
          ok := AdvanceTo(o.time.value, a.clock);
          if !ok {
            return;
          }
        } else if o.time.value != businessTime {
          Demand(false);
          return false;
        }
      }
      if o.id in seenObservations {
        ok := seenObservations[o.id] == o;
        Demand(ok);
        return;
      }
      ok := Record(o, a);
    }

    method Record(o: Observation, a: Answers) returns (ok: bool)
      requires Valid() && story.live
      modifies this
      ensures Valid() && story == See(Absorb(old(story), mode, o, a), o) && ok == story.live
    {
      hide Size, Absorb;
      ok := AbsorbOne(o, a);
      if !ok {
        return;
      }
      if Size(transient) > MAX_TRANSIENT_BYTES {
        Demand(false);
        return false;
      }
      seenObservations := seenObservations[o.id := o];
      story := story.(seen := seenObservations);
    }

    method AbsorbOne(o: Observation, a: Answers) returns (ok: bool)
      requires Valid() && story.live
      modifies this
      ensures Valid() && story == Absorb(old(story), mode, o, a) && ok == story.live
    {
      if o.callId.Some? && activeTask.Some? {
        if pendingTool.None? || o.callId != Some(pendingTool.value.id) || o.tool != Some(pendingTool.value.tool) {
          Demand(false);
          return false;
        }
        story := story.(taken := story.taken + [o.id]);
        PushStep(Returned(pendingTool.value, o.bytes));
        ok := a.brain;
        Demand(ok);
      } else if mode.Persistent? {
        story := story.(taken := story.taken + [o.id], version := story.version + 1);
        if !a.brain {
          Demand(false);
          return false;
        }
        taskMemory := None;
        story := story.(memory := None);
        ok := true;
      } else {
        ok := true;
      }
    }

    method ActOn(request: Request, task: Task, continuation: bool, a: Answers) returns (ok: bool)
      requires Valid() && story.live
      modifies this
      ensures Valid() && story == DoAct(old(story), mode, task, continuation, CallId(request), a) && ok == story.live
    {
      hide Size, ToolsFit;
      var frozen := task;
      if task.id == "" {
        Demand(false);
        return false;
      }
      if continuation {
        if activeTask.None? || activeTask.value.id != task.id || pendingTool.Some? {
          Demand(false);
          return false;
        }
        frozen := activeTask.value;
      }
      // Checked before the previous task is handed to Brain.
      var names := TaskTools(frozen);
      if names.None? {
        Demand(false);
        return false;
      }
      if !continuation {
        ok := FinishTaskBoundary(a.before);
        if !ok {
          return;
        }
        ghost var before := story;
        activeTask := Some(frozen);
        story := OpenTask(story, frozen);
        assert Current(before) == [];
      }
      ok := TakeStep(frozen, names.value, CallId(request), a);
    }

    method TakeStep(task: Task, names: map<string, string>, id: string, a: Answers) returns (ok: bool)
      requires Valid() && story.live && activeTask.Some?
      requires task.tools.Some? && forall alias :: Lookup(names, alias) == RunnerName(task.tools.value, alias)
      modifies this
      ensures Valid() && story == Take(old(story), mode, task, id, a) && ok == story.live
    {
      hide Lookup, Move, FinishTask, Push;
      if taskMemory.None? {
        if mode.Persistent? && a.recall.None? {
          Demand(false);
          return false;
        }
        taskMemory := Some(if mode.NoMemory? then "" else a.recall.value);
        story := Remember(story, mode, a.recall);
      }
      story := Ask(story);
      ok := AnswerWith(task, names, id, a);
    }

    method AnswerWith(task: Task, names: map<string, string>, id: string, a: Answers) returns (ok: bool)
      requires Valid() && story.live && activeTask.Some?
      requires task.tools.Some? && forall alias :: Lookup(names, alias) == RunnerName(task.tools.value, alias)
      modifies this
      ensures Valid() && story == Answer(old(story), mode, Move(task, a.output, id), a) && ok == story.live
    {
      hide Size, Push, RunnerName;
      if a.output.None? || |a.output.value.calls| > 1 || (|a.output.value.calls| == 0 && !a.output.value.reply) {
        Demand(false);
        return false;
      }
      var output := a.output.value;
      var step := Said(output.bytes);
      if |output.calls| == 1 {
        assert Lookup(names, output.calls[0]) == RunnerName(task.tools.value, output.calls[0]);
        if output.calls[0] !in names {
          Demand(false);
          return false;
        }
        step := Called(Call(id, names[output.calls[0]]), output.bytes);
      }
      PushStep(step);
      if Size(transient) > MAX_TRANSIENT_BYTES {
        Demand(false);
        return false;
      }
      ok := true;
      if step.Said? {
        ok := FinishTaskBoundary(a.after);
      }
    }

    method MaintainOnce(a: Answers) returns (ok: bool)
      requires Valid() && story.live
      modifies this
      ensures Valid() && story == DoMaintain(old(story), mode, a) && ok == story.live
    {
      hide FinishTask;
      ok := FinishTaskBoundary(a.before);
      if ok && mode.Persistent? {
        story := story.(version := story.version + 1);
        ok := a.brain;
        Demand(ok);
      }
    }

    /** One request under the run's lock. */
    method Operate(r: Request, a: Answers) returns (ok: bool)
      requires Valid() && story.live
      modifies this
      ensures Valid() && story == Perform(old(story), mode, r, a) && ok == story.live
    {
      hide Serve;
      if r.operation.Audit? {
        ok := r.operation.empty && a.brain;
        Demand(ok);
        return;
      }
      if r.time.Some? {
        ok := AdvanceTo(r.time.value, a.clock);
        if !ok {
          return;
        }
      }
      ok := ServeOne(r, a);
    }

    method ServeOne(r: Request, a: Answers) returns (ok: bool)
      requires Valid() && story.live
      modifies this
      ensures Valid() && story == Serve(old(story), mode, r, a) && ok == story.live
    {
      hide DoAct, DoObserve, DoMaintain, FinishTask, Size;
      ok := true;
      match r.operation {
        case Audit(_) =>
        case Reset =>
        case Observe(observation) =>
          ok := ObserveOne(observation, r.time.Some?, a);
        case Maintain =>
          ok := MaintainOnce(a);
        case SessionBoundary =>
          ok := FinishTaskBoundary(a.before);
          if ok {
            ok := mode.NoMemory? || a.brain;
            Demand(ok);
          }
        case Retrieve(valid) =>
          ok := r.protocol.Memory? && valid && (mode.NoMemory? || a.recall.Some?);
          Demand(ok);
        case Respond(valid) =>
          if !r.protocol.Agent? || !valid {
            Demand(false);
            return false;
          }
          ok := FinishTaskBoundary(a.before);
          if ok {
            ok := (mode.NoMemory? || a.recall.Some?) && a.output.Some? && |a.output.value.calls| == 0 && a.output.value.reply;
            Demand(ok);
          }
        case Act(task, continuation) =>
          if !r.protocol.Agent? {
            Demand(false);
            return false;
          }
          ok := ActOn(r, task, continuation, a);
      }
    }
  }
}
