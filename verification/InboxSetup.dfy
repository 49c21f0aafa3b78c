/** The two-file inbox setup, written so that an interruption between any writes is resumed. */
module InboxSetup {
  import opened Wrappers

  const RUNTIME_FILE := "brain-inbox.runtime.yaml"
  const PREVIEW_MS := 600_000

  /** The config's bytes, as far as they are read: its settings, or text that does not parse. */
  datatype Config =
    | Settings(body: string, runtimeConfig: Option<string>, formatted: bool)
    | Unreadable(text: string)

  function Update(config: Config): Option<Config> {
    if config.Settings? then Some(config.(runtimeConfig := Some(RUNTIME_FILE), formatted := true)) else None
  }

  predicate NamesRuntime(config: Config) {
    config.Settings? && config.runtimeConfig == Some(RUNTIME_FILE)
  }

  function RuntimeFor(caller: string): string { "runtime of " + caller }

  datatype State = Prepared | Applying | RestartRequired

  datatype Record = Record(caller: string, before: Config, after: Config, runtime: string, state: State, expiresAt: nat)

  datatype Stage = Look | Link | Unlink(made: bool)

  datatype Pc =
    | Idle
    | Finishing
    | Admitting(read: Config)
    | Backing(read: Config, stage: Stage)
    | Installing(read: Config, stage: Stage)
    | Replacing(read: Config)
    | Completing

  /** `litter` counts temporary files; `touched` says the config was edited since it was read. */
  datatype Machine = Machine(
    config: Config, runtime: Option<string>, backups: map<Config, Config>, record: Option<Record>,
    litter: nat, pc: Pc, touched: bool)

  /** The setup is a journal record, the daemon's config, the runtime file it is to name, and
      a backup. A file write is atomic, digests are injective (so the record holds the bytes
      they stand for), and an action is one effect. `Edit` is somebody else changing the
      config. */
  datatype Action =
    | Prepare(caller: string, now: nat)
    | Commit(caller: string, now: nat)
    | Recover
    | Next
    | Edit(config: Config)
    | Crash

  function Start(config: Config): Machine { Machine(config, None, map[], None, 0, Idle, false) }

  /** What `prepare` answers: the stored record of a setup under way or in place, a new one, or
      a refusal. Either answer is what is stored then. */
  function Preview(m: Machine, caller: string, now: nat): Result<Record, string> {
    if m.record.Some? && m.record.value.caller == caller && m.record.value.state.Applying? then Ok(m.record.value)
    else if !m.config.Settings? then Err("config.yaml is not text")
    else if NamesRuntime(m.config) && m.record.None? then Err("custom_runtime_config")
    else if NamesRuntime(m.config) && m.record.value.caller == caller && m.runtime == Some(m.record.value.runtime) then
      Ok(m.record.value)
    else if m.config.runtimeConfig.Some? then Err("custom_runtime_config")
    else if m.runtime.Some? && (m.record.None? || m.record.value.caller != caller
                                || m.record.value.runtime != RuntimeFor(caller) || m.runtime.value != RuntimeFor(caller)) then
      Err("runtime_file_exists")
    else Ok(Record(caller, m.config, Update(m.config).value, RuntimeFor(caller), Prepared, now + PREVIEW_MS))
  }

  /** The checks an apply begins with, on the config it reads. */
  function BeginApply(m: Machine): Machine
    requires m.record.Some?
  {
    var r := m.record.value;
    if m.config == r.after then
      if m.runtime == Some(r.runtime) then m.(pc := Finishing) else m
    else if m.config != r.before || Update(m.config) != Some(r.after) then m
    else m.(pc := Admitting(m.config), touched := false)
  }

  function Advance(m: Machine, r: Record): Machine
    requires m.record == Some(r)
  {
    match m.pc
    case Idle => m
    case Finishing => m.(record := Some(r.(state := RestartRequired)), pc := Idle)
    case Admitting(read) => m.(record := Some(r.(state := Applying)), pc := Backing(read, Look))
    case Backing(read, stage) => AdvanceBackup(m, r, read, stage)
    case Installing(read, stage) => AdvanceRuntime(m, r, read, stage)
    case Replacing(_) => m.(config := r.after, pc := Completing)
    case Completing => m.(record := Some(r.(state := RestartRequired)), pc := Idle)
  }

  /** `create_exact`: an existing file must hold the bytes; otherwise a temporary file is linked
      under the name, which fails if the name was taken meanwhile. */
  function AdvanceBackup(m: Machine, r: Record, read: Config, stage: Stage): Machine {
    match stage
    case Look =>
      if r.before in m.backups then
        m.(pc := if m.backups[r.before] == read then Installing(read, Look) else Idle)
      else m.(litter := m.litter + 1, pc := Backing(read, Link))
    case Link =>
      if r.before in m.backups then m.(pc := Backing(read, Unlink(m.backups[r.before] == read)))
      else m.(backups := m.backups[r.before := read], pc := Backing(read, Unlink(true)))
    case Unlink(made) =>
      m.(litter := if m.litter > 0 then m.litter - 1 else 0, pc := if made then Installing(read, Look) else Idle)
  }

  function AdvanceRuntime(m: Machine, r: Record, read: Config, stage: Stage): Machine {
    match stage
    case Look =>
      if m.runtime.Some? then m.(pc := if m.runtime.value == r.runtime then Replacing(read) else Idle)
      else m.(litter := m.litter + 1, pc := Installing(read, Link))
    case Link =>
      if m.runtime.Some? then m.(pc := Installing(read, Unlink(m.runtime.value == r.runtime)))
      else m.(runtime := Some(r.runtime), pc := Installing(read, Unlink(true)))
    case Unlink(made) =>
      m.(litter := if m.litter > 0 then m.litter - 1 else 0, pc := if made then Replacing(read) else Idle)
  }

  function Apply(m: Machine, action: Action): Machine {
    match action
    case Prepare(caller, now) =>
      if !m.pc.Idle? then m else
      (match Preview(m, caller, now) case Ok(r) => m.(record := Some(r)) case Err(_) => m)
    case Commit(caller, now) =>
      if !m.pc.Idle? || m.record.None? || m.record.value.caller != caller
         || (m.record.value.state.Prepared? && now > m.record.value.expiresAt)
      then m else BeginApply(m)
    case Recover =>
      if m.pc.Idle? && m.record.Some? && m.record.value.state.Applying? then BeginApply(m) else m
    case Next => if m.record.Some? then Advance(m, m.record.value) else m
    case Edit(config) => m.(config := config, touched := true)
    case Crash => m.(pc := Idle)
  }

  function Exec(config: Config, actions: seq<Action>): Machine {
    if actions == [] then Start(config)
    else Apply(Exec(config, actions[..|actions| - 1]), actions[|actions| - 1])
  }

  lemma ExecStep(config: Config, actions: seq<Action>, action: Action)
    ensures Exec(config, actions + [action]) == Apply(Exec(config, actions), action)
  {
    assert (actions + [action])[..|actions|] == actions;
  }

  // ---------------------------------------------------------------- with anybody editing

  /** What holds whoever edits the config. */
  ghost predicate Inv(m: Machine) {
    && (forall c :: c in m.backups ==> m.backups[c] == c)
    && (m.record.None? ==> m.pc.Idle? && m.runtime.None?)
    && (m.record.Some? ==>
          var r := m.record.value;
          && Update(r.before) == Some(r.after) && !NamesRuntime(r.before)
          && r.runtime == RuntimeFor(r.caller)
          && (m.runtime.Some? ==> m.runtime.value == r.runtime)
          && (match m.pc
              case Idle => true
              case Finishing => m.runtime.Some?
              case Admitting(read) => read == r.before
              case Backing(read, stage) => read == r.before && r.state.Applying? && (stage.Unlink? ==> r.before in m.backups && stage.made)
              case Installing(read, stage) =>
                read == r.before && r.state.Applying? && r.before in m.backups && (stage.Unlink? ==> m.runtime.Some? && stage.made)
              case Replacing(read) => read == r.before && r.state.Applying? && r.before in m.backups && m.runtime.Some?
              case Completing => r.before in m.backups && m.runtime.Some?)
          && (m.pc.Admitting? || m.pc.Backing? || m.pc.Installing? || m.pc.Replacing? ==>
                m.touched || m.config == r.before))
  }

  lemma CreateKeeps(m: Machine)
    requires Inv(m) && m.record.Some? && (m.pc.Backing? || m.pc.Installing?)
    ensures Inv(Advance(m, m.record.value))
  {
  }

  lemma AdvanceKeeps(m: Machine)
    requires Inv(m) && m.record.Some?
    ensures Inv(Advance(m, m.record.value))
  {
    if m.pc.Backing? || m.pc.Installing? {
      CreateKeeps(m);
    }
  }

  lemma BeginKeeps(m: Machine)
    requires Inv(m) && m.record.Some? && m.pc.Idle?
    ensures Inv(BeginApply(m))
  {
  }

  lemma PrepareKeeps(m: Machine, caller: string, now: nat)
    requires Inv(m)
    ensures Inv(Apply(m, Prepare(caller, now)))
  {
  }

  lemma {:induction false} InvHolds(config: Config, actions: seq<Action>)
    ensures Inv(Exec(config, actions))
  {
    if actions != [] {
      InvHolds(config, actions[..|actions| - 1]);
      var m, action := Exec(config, actions[..|actions| - 1]), actions[|actions| - 1];
      match action
      case Prepare(caller, now) => PrepareKeeps(m, caller, now);
      case Commit(_, _) =>
        if m.pc.Idle? && m.record.Some? {
          BeginKeeps(m);
        }
      case Recover =>
        if m.pc.Idle? && m.record.Some? {
          BeginKeeps(m);
        }
      case Next =>
        if m.record.Some? {
          AdvanceKeeps(m);
        }
      case Edit(_) =>
      case Crash =>
    }
  }

  /** The host overwrites only the config it admitted, unless it was edited between the
      host's read and its write. */
  lemma {:induction false} OnlyTheAdmittedConfigIsReplaced(config: Config, actions: seq<Action>, action: Action)
    requires !action.Edit?
    requires Apply(Exec(config, actions), action).config != Exec(config, actions).config
    ensures var m := Exec(config, actions);
      m.record.Some? && m.record.value.state.Applying?
      && (m.config == m.record.value.before || m.touched)
      && Apply(m, action).config == m.record.value.after
  {
    InvHolds(config, actions);
  }

  predicate Foreign(m: Machine) {
    m.record.Some? && m.config != m.record.value.before && m.config != m.record.value.after
  }

  /** A config that matches neither digest stops every apply for good: commits, recoveries and
      deaths change no file and no record until it is edited or prepared anew. */
  lemma {:induction false} ForeignConfigStopsTheApply(config: Config, actions: seq<Action>, more: seq<Action>)
    requires Exec(config, actions).pc.Idle? && Foreign(Exec(config, actions))
    requires forall k :: 0 <= k < |more| ==> !more[k].Edit? && !more[k].Prepare?
    ensures Exec(config, actions + more) == Exec(config, actions)
  {
    if more == [] {
      assert actions + more == actions;
    } else {
      ForeignConfigStopsTheApply(config, actions, more[..|more| - 1]);
      assert actions + more == (actions + more[..|more| - 1]) + [more[|more| - 1]];
      ExecStep(config, actions + more[..|more| - 1], more[|more| - 1]);
    }
  }

  /** A preparation gives up a setup under way exactly when another caller makes it, on a
      readable config that names no runtime, before the runtime file is there. */
  lemma {:induction false} ApplyIsReplacedExactly(config: Config, actions: seq<Action>, caller: string, now: nat)
    requires var m := Exec(config, actions); m.pc.Idle? && m.record.Some? && m.record.value.state.Applying?
    ensures var m := Exec(config, actions);
      Apply(m, Prepare(caller, now)) != m <==>
        m.record.value.caller != caller && m.config.Settings? && m.config.runtimeConfig.None? && m.runtime.None?
  {
    InvHolds(config, actions);
  }

  /** No edit, and no preparation by another caller unless the runtime file is there. */
  predicate Undisturbed(owner: string, installed: bool, more: seq<Action>) {
    forall k :: 0 <= k < |more| ==>
      !more[k].Edit? && (more[k].Prepare? ==> installed || more[k].caller == owner)
  }

  /** The setup `r`, admitted and not given up. */
  ghost predicate Underway(m: Machine, r: Record, installed: bool) {
    && Inv(m) && r.state.Applying? && (installed ==> m.runtime.Some?)
    && (m.record == Some(r)
        || (m.record == Some(r.(state := RestartRequired)) && (m.pc.Idle? || m.pc.Finishing?)
            && m.config == r.after && m.runtime.Some?))
    && (m.pc.Finishing? || m.pc.Completing? ==> m.config == r.after && m.runtime.Some?)
  }

  /** Undisturbed so, an admitted setup is kept through deaths, recoveries, commits and its
      owner's preparations, until it is installed and from then on. */
  lemma {:induction false} AdmittedSetupStays(config: Config, actions: seq<Action>, more: seq<Action>)
    requires var m := Exec(config, actions); m.pc.Idle? && m.record.Some? && m.record.value.state.Applying?
    requires var m := Exec(config, actions); Undisturbed(m.record.value.caller, m.runtime.Some?, more)
    ensures var m := Exec(config, actions); Underway(Exec(config, actions + more), m.record.value, m.runtime.Some?)
  {
    if more == [] {
      assert actions + more == actions;
      InvHolds(config, actions);
    } else {
      var m, front, last := Exec(config, actions), more[..|more| - 1], more[|more| - 1];
      AdmittedSetupStays(config, actions, front);
      assert actions + more == (actions + front) + [last];
      ExecStep(config, actions + front, last);
      InvHolds(config, actions + more);
      UnderwayStays(Exec(config, actions + front), m.record.value, m.runtime.Some?, last);
    }
  }

  lemma UnderwayStays(m: Machine, r: Record, installed: bool, action: Action)
    requires Underway(m, r, installed) && Undisturbed(r.caller, installed, [action]) && Inv(Apply(m, action))
    ensures Underway(Apply(m, action), r, installed)
  {
    assert [action][0] == action;
  }

  /** So an admitted setup can be lost: a death before the runtime file is written and another
      caller's preparation, and recovery has nothing to resume. */
  lemma AnotherCallerReplacesTheApply(body: string, owner: string, other: string, now: nat) returns (actions: seq<Action>)
    requires owner != other
    ensures var m := Exec(Settings(body, None, false), actions);
      && m.record.Some? && m.record.value.caller == owner && m.record.value.state.Applying? && m.pc.Idle?
      && (var m' := Apply(m, Prepare(other, now));
          m'.record.Some? && m'.record.value.caller == other && m'.record.value.state.Prepared? && Apply(m', Recover) == m')
  {
    var config := Settings(body, None, false);
    actions := [];
    ExecStep(config, actions, Prepare(owner, 0));
    actions := actions + [Prepare(owner, 0)];
    ExecStep(config, actions, Commit(owner, 0));
    actions := actions + [Commit(owner, 0)];
    ExecStep(config, actions, Next);
    actions := actions + [Next];
    ExecStep(config, actions, Crash);
    actions := actions + [Crash];
  }

  /** The machine `i` steps into a first apply of `r`. */
  ghost predicate Applied(m: Machine, r: Record, i: nat) {
    && m.config == r.before && m.record == Some(if i == 0 then r else r.(state := Applying))
    && (i < 3 ==> m.backups == map[]) && (i < 6 ==> m.runtime.None?)
    && m.pc == match i
               case 0 => Admitting(r.before) case 1 => Backing(r.before, Look) case 2 => Backing(r.before, Link)
               case 3 => Backing(r.before, Unlink(true)) case 4 => Installing(r.before, Look)
               case 5 => Installing(r.before, Link) case 6 => Installing(r.before, Unlink(true))
               case _ => Replacing(r.before)
  }

  lemma AppliedOn(m: Machine, r: Record, i: nat)
    requires Applied(m, r, i) && i < 7
    ensures Applied(Apply(m, Next), r, i + 1)
  {
  }

  /** `touched` is needed: an edit between the read and the write is lost. */
  lemma EditDuringApplyIsLost(body: string, foreign: Config) returns (actions: seq<Action>, last: Action)
    requires foreign != Settings(body, None, false) && foreign != Settings(body, Some(RUNTIME_FILE), true)
    ensures var m := Exec(Settings(body, None, false), actions);
      && m.config == foreign && m.record.Some?
      && foreign != m.record.value.before && foreign != m.record.value.after
      && last.Next? && Apply(m, last).config == m.record.value.after
  {
    var config := Settings(body, None, false);
    last := Next;
    actions := [];
    ExecStep(config, actions, Prepare("owner", 0));
    actions := actions + [Prepare("owner", 0)];
    ExecStep(config, actions, Commit("owner", 0));
    actions := actions + [Commit("owner", 0)];
    ghost var r := Record("owner", config, Update(config).value, RuntimeFor("owner"), Prepared, PREVIEW_MS);
    assert Applied(Exec(config, actions), r, 0);
    var i := 0;
    while i < 7
      invariant 0 <= i <= 7 && Applied(Exec(config, actions), r, i)
    {
      hide Exec, Applied;
      ExecStep(config, actions, Next);
      AppliedOn(Exec(config, actions), r, i);
      actions := actions + [Next];
      i := i + 1;
    }
    ExecStep(config, actions, Edit(foreign));
    actions := actions + [Edit(foreign)];
  }

  // ---------------------------------------------------------------- with no outside edit

  predicate Quiet(actions: seq<Action>) {
    forall i :: 0 <= i < |actions| ==> !actions[i].Edit?
  }

  /** Without edits, the config is the first one or its update, and only a finished pair of
      files is ever called finished. */
  ghost predicate QuietFits(m: Machine, config: Config) {
    && !m.touched
    && (m.config == config || Some(m.config) == Update(config))
    && (m.config != config ==>
          m.record.Some? && m.config == m.record.value.after && m.record.value.before == config
          && m.runtime == Some(m.record.value.runtime) && config in m.backups)
    && (m.record.Some? ==>
          m.record.value.before == config
          && (m.record.value.state.RestartRequired? ==> m.config != config)
          && (m.pc.Finishing? || m.pc.Completing? ==> m.config != config))
  }

  lemma AdvanceQuiet(m: Machine, config: Config)
    requires Inv(m) && QuietFits(m, config) && m.record.Some?
    ensures QuietFits(Advance(m, m.record.value), config)
  {
  }

  lemma StartQuiet(m: Machine, config: Config, action: Action)
    requires Inv(m) && QuietFits(m, config) && !NamesRuntime(config)
    requires action.Prepare? || action.Commit? || action.Recover? || action.Crash?
    ensures QuietFits(Apply(m, action), config)
  {
  }

  lemma {:induction false} QuietHolds(config: Config, actions: seq<Action>)
    requires Quiet(actions) && !NamesRuntime(config)
    ensures Inv(Exec(config, actions)) && QuietFits(Exec(config, actions), config)
  {
    InvHolds(config, actions);
    if actions != [] {
      var m := Exec(config, actions[..|actions| - 1]);
      QuietHolds(config, actions[..|actions| - 1]);
      assert !actions[|actions| - 1].Edit?;
      if actions[|actions| - 1].Next? {
        if m.record.Some? {
          AdvanceQuiet(m, config);
        }
      } else {
        StartQuiet(m, config, actions[|actions| - 1]);
      }
    }
  }

  /** In every state, the config names the runtime file only if that file exists with the
      bytes that were admitted. */
  lemma {:induction false} NamedFileExists(config: Config, actions: seq<Action>)
    requires Quiet(actions) && !NamesRuntime(config)
    ensures var m := Exec(config, actions);
      NamesRuntime(m.config) ==> m.record.Some? && m.runtime == Some(m.record.value.runtime)
  {
    QuietHolds(config, actions);
  }

  function Rank(pc: Pc): nat {
    match pc
    case Idle => 0
    case Finishing => 1
    case Completing => 1
    case Replacing(_) => 2
    case Installing(_, stage) => (match stage case Unlink(_) => 3 case Link => 4 case Look => 5)
    case Backing(_, stage) => (match stage case Unlink(_) => 6 case Link => 7 case Look => 8)
    case Admitting(_) => 9
  }

  /** Lets a running apply end. */
  function RunOut(m: Machine): Machine
    requires m.record.Some?
    decreases Rank(m.pc)
  {
    if m.pc.Idle? then m else RunOut(Advance(m, m.record.value))
  }

  ghost predicate Installed(m: Machine, config: Config) {
    && m.record.Some? && m.record.value.state.RestartRequired?
    && Update(config) == Some(m.config)
    && m.runtime == Some(m.record.value.runtime)
    && config in m.backups && m.backups[config] == config
  }

  /** A step ends an apply only by asking for the restart. */
  lemma AdvanceStops(m: Machine)
    requires Inv(m) && m.record.Some? && !m.pc.Idle?
    ensures var m' := Advance(m, m.record.value);
      m'.record.Some? && (m'.pc.Idle? ==> m'.record.value.state.RestartRequired?)
  {
  }

  lemma {:induction false} QuietRunOut(m: Machine, config: Config)
    requires Inv(m) && QuietFits(m, config) && !m.pc.Idle?
    ensures m.record.Some? && Installed(RunOut(m), config)
    decreases Rank(m.pc)
  {
    var m' := Advance(m, m.record.value);
    AdvanceKeeps(m);
    AdvanceQuiet(m, config);
    AdvanceStops(m);
    if !m'.pc.Idle? {
      QuietRunOut(m', config);
    }
  }

  /** From any crash inside an apply, one recovery ends with the updated config, the exact
      runtime file, the original bytes in the backup, and a restart asked for. */
  lemma {:induction false} RecoveryCompletes(config: Config, actions: seq<Action>)
    requires Quiet(actions) && !NamesRuntime(config)
    requires var m := Exec(config, actions); m.pc.Idle? && m.record.Some? && m.record.value.state.Applying?
    ensures var m' := Apply(Exec(config, actions), Recover); m'.record.Some? && Installed(RunOut(m'), config)
  {
    QuietHolds(config, actions);
    ExecStep(config, actions, Recover);
    assert Quiet(actions + [Recover]);
    QuietHolds(config, actions + [Recover]);
    QuietRunOut(Exec(config, actions + [Recover]), config);
  }

  // ---------------------------------------------------------------- the host's code

  class InboxSetupService {
    var config: Config
    var runtime: Option<string>
    var backups: map<Config, Config>
    var record: Option<Record>
    ghost const first: Config
    ghost var machine: Machine
    ghost var log: seq<Action>

    /** The files and the journal are the machine's. */
    ghost predicate Mirrors()
      reads this
    {
      && machine == Exec(first, log)
      && machine.config == config && machine.runtime == runtime && machine.backups == backups && machine.record == record
    }

    constructor (config: Config)
      ensures Mirrors() && machine == Start(config) && first == config
    {
      this.config, runtime, backups, record := config, None, map[], None;
      first, machine, log := config, Start(config), [];
    }

    ghost method Note(action: Action)
      requires machine == Exec(first, log)
      modifies this`machine, this`log
      ensures machine == Apply(old(machine), action) == Exec(first, log)
    {
      ExecStep(first, log, action);
      machine, log := Apply(machine, action), log + [action];
    }

    ghost method NoteNext()
      requires machine == Exec(first, log) && machine.record.Some? && !machine.pc.Idle?
      modifies this`machine, this`log
      ensures machine == Advance(old(machine), old(machine.record.value)) == Exec(first, log)
      ensures machine.record.Some? && RunOut(machine) == RunOut(old(machine))
    {
      InvHolds(first, log);
      Note(Next);
    }

    method PrepareSetup(caller: string, now: nat) returns (result: Result<Record, string>)
      requires Mirrors() && machine.pc.Idle?
      modifies this
      ensures Mirrors() && machine == Apply(old(machine), Prepare(caller, now))
      ensures result == Preview(old(machine), caller, now)
    {
      hide Exec;
      ghost var start := machine;
      Note(Prepare(caller, now));
      if record.Some? && record.value.caller == caller && record.value.state.Applying? {
        return Ok(record.value);
      }
      if !config.Settings? {
        return Err("config.yaml is not text");
      }
      if NamesRuntime(config) {
        if record.None? {
          return Err("custom_runtime_config");
        }
        if record.value.caller == caller && runtime == Some(record.value.runtime) {
          return Ok(record.value);
        }
      }
      if config.runtimeConfig.Some? {
        return Err("custom_runtime_config");
      }
      if runtime.Some? {
        if record.None? || record.value.caller != caller || record.value.runtime != RuntimeFor(caller)
           || runtime.value != RuntimeFor(caller) {
          return Err("runtime_file_exists");
        }
      }
      record := Some(Record(caller, config, Update(config).value, RuntimeFor(caller), Prepared, now + PREVIEW_MS));
      return Ok(record.value);
    }

    method CommitSetup(caller: string, now: nat) returns (result: Result<Record, string>)
      requires Mirrors() && machine.pc.Idle?
      modifies this
      ensures Mirrors()
      ensures var m := Apply(old(machine), Commit(caller, now)); machine == if m.record.Some? then RunOut(m) else m
      ensures result.Ok? ==> Some(result.value) == record && record.value.state.RestartRequired?
    {
      hide Exec, RunOut;
      Note(Commit(caller, now));
      if record.None? {
        return Err("not_found");
      }
      var r := record.value;
      RunOutIdle(machine);
      if r.caller != caller {
        return Err("revision_conflict");
      }
      if r.state.Prepared? && now > r.expiresAt {
        return Err("preview_expired");
      }
      var applied := ApplyRecord(r);
      return if applied then Ok(record.value) else Err("revision_conflict");
    }

    /** Resumes only an apply that was admitted. */
    method RecoverSetup() returns (ok: bool)
      requires Mirrors() && machine.pc.Idle?
      modifies this
      ensures Mirrors()
      ensures var m := Apply(old(machine), Recover); machine == if m.record.Some? then RunOut(m) else m
    {
      hide Exec, RunOut;
      Note(Recover);
      ok := true;
      if record.Some? {
        RunOutIdle(machine);
        if record.value.state.Applying? {
          ok := ApplyRecord(record.value);
        }
      }
    }

    method ApplyRecord(r: Record) returns (ok: bool)
      requires Mirrors() && record == Some(r)
      requires exists m: Machine :: m.record == Some(r) && m.config == config && m.runtime == runtime && m.pc.Idle? && machine == BeginApply(m)
      modifies this
      ensures Mirrors() && record.Some? && machine == RunOut(old(machine))
      ensures ok ==> record.value.state.RestartRequired?
    {
      hide Exec, RunOut;
      RunOutIdle(machine);
      var bytes := config;
      if bytes == r.after {
        if runtime != Some(r.runtime) {
          return false;
        }
        record := Some(r.(state := RestartRequired));
        NoteNext();
        RunOutIdle(machine);
        return true;
      }
      if bytes != r.before {
        return false;
      }
      if Update(bytes) != Some(r.after) {
        return false;
      }
      var r := r.(state := Applying);
      record := Some(r);
      NoteNext();
      ok := CreateBackup(r, bytes);
      if !ok {
        return;
      }
      ok := CreateRuntime(r, bytes);
      if !ok {
        return;
      }
      config := r.after;
      NoteNext();
      record := Some(r.(state := RestartRequired));
      NoteNext();
      RunOutIdle(machine);
    }

    method CreateBackup(r: Record, bytes: Config) returns (ok: bool)
      requires Mirrors() && record == Some(r) && machine.pc == Backing(bytes, Look)
      modifies this`backups, this`machine, this`log
      ensures Mirrors() && RunOut(machine) == RunOut(old(machine))
      ensures if ok then machine.pc == Installing(bytes, Look) else machine.pc.Idle? && machine == RunOut(machine)
    {
      hide Exec, RunOut;
      if r.before in backups {
        ok := backups[r.before] == bytes;
        NoteNext();
        RunOutIdle(machine);
        return;
      }
      NoteNext();
      backups := backups[r.before := bytes];
      NoteNext();
      NoteNext();
      return true;
    }

    method CreateRuntime(r: Record, bytes: Config) returns (ok: bool)
      requires Mirrors() && record == Some(r) && machine.pc == Installing(bytes, Look)
      modifies this`runtime, this`machine, this`log
      ensures Mirrors() && RunOut(machine) == RunOut(old(machine))
      ensures if ok then machine.pc == Replacing(bytes) else machine.pc.Idle? && machine == RunOut(machine)
    {
      hide Exec, RunOut;
      if runtime.Some? {
        ok := runtime.value == r.runtime;
        NoteNext();
        RunOutIdle(machine);
        return;
      }
      NoteNext();
      runtime := Some(r.runtime);
      NoteNext();
      NoteNext();
      return true;
    }
  }

  lemma RunOutIdle(m: Machine)
    requires m.record.Some?
    ensures m.pc.Idle? ==> RunOut(m) == m
  {
  }
}
