/** What a preparation and an apply do, told by what they find.

    Both run until they end, in any state that some run reaches, with whatever configuration other
    programs have left there. The lemmas say which setup a caller is shown, and when an apply puts
    the configuration, the runtime file and the backup in place, and that it leaves no other file
    behind. */
module SetupTurns {
  import opened Wrappers
  import opened InboxSetup

  /** A config with the runtime file named in it, rewritten in the host's format. */
  predicate NamesItIn(config: Config, updated: Config) {
    config.Settings? && updated == Settings(config.body, Some("brain-inbox.runtime.yaml"), true)
  }

  /** The new setup a caller is shown: the config as it is and as it is to be. */
  predicate NewSetup(r: Record, config: Config, caller: string, now: nat) {
    && r.caller == caller && r.before == config && NamesItIn(config, r.after) && r.runtime == RuntimeFor(caller)
    && r.state.Prepared? && r.expiresAt == now + 600_000
  }

  /** A preparation answers with the caller's own setup that is under way or in place, shows a
      new one for a readable config that names no runtime where no other's file is, and is
      refused otherwise; only a new one is stored. */
  lemma {:induction false} PrepareExactly(config: Config, actions: seq<Action>, caller: string, now: nat)
    requires Exec(config, actions).pc.Idle?
    ensures var m := Exec(config, actions);
      var m', answer := Apply(m, Prepare(caller, now)), Preview(m, caller, now);
      var own := m.record.Some? && m.record.value.caller == caller;
      && m' == m.(record := m'.record)
      && if own && m.record.value.state.Applying? then answer == Ok(m.record.value) && m' == m
         else if own && NamesRuntime(m.config) && m.runtime.Some? then answer == Ok(m.record.value) && m' == m
         else if m.config.Settings? && m.config.runtimeConfig.None? && (m.runtime.Some? ==> own) then
           answer.Ok? && NewSetup(answer.value, m.config, caller, now) && m'.record == Some(answer.value)
         else answer.Err? && m' == m
  {
    InvHolds(config, actions);
  }

  /** A commit or recovery has something to do: the config is the one shown, and none of its
      files is somebody else's, or all is in place already. */
  predicate MayApply(m: Machine, r: Record) { m.config == r.before || (m.config == r.after && m.runtime == Some(r.runtime)) }

  /** All of it is in place, no temporary file is left, and a restart is asked for. */
  predicate InPlace(m: Machine, m': Machine, r: Record) {
    && m'.pc.Idle? && m'.record == Some(r.(state := RestartRequired)) && m'.config == r.after && m'.runtime == Some(r.runtime)
    && (m.config != r.after ==> m'.backups == m.backups[r.before := r.before])
    && (m.config == r.after ==> m'.backups == m.backups && m'.runtime == m.runtime)
    && m'.litter == m.litter
  }

  /** An apply that nobody interrupts puts all in place, or finds a foreign config and leaves
      everything as it is. */
  lemma {:induction false} ApplyExactly(config: Config, actions: seq<Action>)
    requires Exec(config, actions).pc.Idle? && Exec(config, actions).record.Some?
    ensures var m := Exec(config, actions);
      var r, m' := m.record.value, RunOut(BeginApply(m));
      if MayApply(m, r) then InPlace(m, m', r) else m' == m
  {
    InvHolds(config, actions);
    var m := Exec(config, actions);
    var r, m0 := m.record.value, BeginApply(m);
    RunOutIdle(m0);
    if m0.pc.Finishing? {
      RunOutIdle(Advance(m0, r));
    } else if m0.pc.Admitting? {
      assert r.before != r.after;
      var r1 := r.(state := Applying);
      var m1 := Advance(m0, r);
      assert m1.record == Some(r1) && m1.pc == Backing(r.before, Look);
      BacksUp(m1, r1);
    }
  }

  lemma BacksUp(m: Machine, r: Record)
    requires Inv(m) && m.record == Some(r) && m.pc == Backing(r.before, Look) && m.config == r.before != r.after && r.state.Applying?
    ensures InPlace(m, RunOut(m), r)
  {
    if r.before in m.backups {
      assert m.backups[r.before := r.before] == m.backups;
      Installs(Advance(m, r), m, r);
    } else {
      var m1 := Advance(m, r);
      var m2 := Advance(m1, r);
      var m3 := Advance(m2, r);
      assert m1.pc == Backing(r.before, Link) && m2.pc == Backing(r.before, Unlink(true)) && m3.pc == Installing(r.before, Look);
      assert RunOut(m) == RunOut(m1) && RunOut(m1) == RunOut(m2) && RunOut(m2) == RunOut(m3);
      Installs(m3, m, r);
    }
  }

  lemma Installs(m: Machine, first: Machine, r: Record)
    requires m.record == Some(r) && m.pc == Installing(r.before, Look) && m.config == r.before && first.config == r.before != r.after
    requires m.runtime.Some? ==> m.runtime.value == r.runtime
    requires m.backups == first.backups[r.before := r.before] && m.litter == first.litter
    ensures InPlace(first, RunOut(m), r)
  {
    if m.runtime.Some? {
      Replaces(Advance(m, r), first, r);
    } else {
      var m1 := Advance(m, r);
      var m2 := Advance(m1, r);
      var m3 := Advance(m2, r);
      assert m1.pc == Installing(r.before, Link) && m2.pc == Installing(r.before, Unlink(true)) && m3.pc == Replacing(r.before);
      assert RunOut(m) == RunOut(m1) && RunOut(m1) == RunOut(m2) && RunOut(m2) == RunOut(m3);
      Replaces(m3, first, r);
    }
  }

  lemma Replaces(m: Machine, first: Machine, r: Record)
    requires m.record == Some(r) && m.pc == Replacing(r.before) && m.runtime == Some(r.runtime) && first.config == r.before != r.after
    requires m.backups == first.backups[r.before := r.before] && m.litter == first.litter
    ensures InPlace(first, RunOut(m), r)
  {
    var m1 := Advance(m, r);
    var m2 := Advance(m1, r);
    assert RunOut(m) == RunOut(m1) && RunOut(m1) == RunOut(m2);
    RunOutIdle(m2);
  }

  /** A commit applies the caller's own setup unless its preview has expired; a recovery one
      that was admitted; neither anything else. */
  lemma BeginsExactly(m: Machine, caller: string, now: nat)
    requires m.pc.Idle?
    ensures Apply(m, Commit(caller, now)) ==
            if m.record.Some? && m.record.value.caller == caller && (m.record.value.state.Prepared? ==> now <= m.record.value.expiresAt)
            then BeginApply(m) else m
    ensures Apply(m, Recover) == if m.record.Some? && m.record.value.state.Applying? then BeginApply(m) else m
    ensures m.record.Some? && BeginApply(m) != m && m.config != m.record.value.after ==>
              BeginApply(m).pc == Admitting(m.config) && !BeginApply(m).touched
  {
  }
}
