/** What one call on a memory change does, told by the change that is stored.

    A call runs until it ends, each of its requests answered by one reply. It prepares a change,
    discards it or commits it, and the lemmas say which record, which native change and which
    events it leaves. What an answer makes of a committed change is in `Mutation` itself. */
module ChangeTurns {
  import opened Wrappers
  import opened Mutation

  /** A change without a record of its own is stored as it is previewed; for any other a native
      change of the previewed text is made first, and given up again if its sources do not
      resolve. */
  lemma {:induction false} PrepareExactly(actions: seq<Action>, change: Record, reply: Reply)
    requires Exec(actions).pc.Idle? && Exec(actions).record.None? && Preview(change)
    requires Exec(actions).native.Some? ==> Exec(actions).native.value.quote == change.before.value
    ensures var m := Exec(actions);
      var m' := RunOut(Apply(m, Prepare(change)), reply);
      && m'.pc.Idle? && m'.saved == m.saved
      && if change.kind.Misrecorded? then
           m'.record == Some(change) && m'.native == m.native && m'.events == m.events + [Previewed(change.before.value)]
         else
           var state := if m.native.Some? then m.native.value.state else Prepared;
           if reply.Rejected? then
             m'.record.None? && m'.native == Some(Receipt(Discarded, change.before.value)) && m'.events == m.events
           else
             && m'.native == Some(Receipt(state, change.before.value))
             && m'.record == Some(change.(receipt := m'.native)) && m'.events == m.events + [Previewed(change.before.value)]
  {
    var m0 := Apply(Exec(actions), Prepare(change));
    var m1 := AdvanceFrom(m0, reply);
    assert m1.pc.Idle?;
    assert RunOut(m1, reply) == m1;
  }

  /** A second preparation changes nothing. */
  lemma PreparedOnce(m: Machine, change: Record)
    requires m.record.Some? || !m.pc.Idle?
    ensures Apply(m, Prepare(change)) == m
  {
  }

  /** What a discarded change still says: which it was, and nothing of what it showed. */
  predicate Cleared(was: Record, r: Record) {
    && r.state.Discarded? && r.before.None? && r.affected == [] && r.newValue.None?
    && r.kind == was.kind && r.operation == was.operation && r.target == was.target && r.expiresAt == was.expiresAt
    && r.error == was.error && (was.receipt.None? ==> r.receipt.None?)
  }

  /** A discard clears a prepared change and releases the native change it holds; without a
      record it releases what an interrupted preparation left; any other change stays. */
  lemma {:induction false} DiscardExactly(actions: seq<Action>)
    requires Exec(actions).pc.Idle?
    ensures var m := Exec(actions);
      var m' := RunOut(Apply(m, Discard), Silent);
      && m'.pc.Idle? && m'.saved == m.saved
      && if m.record.None? then
           m'.record.None? && (m.native.None? ==> m' == m)
           && (m.native.Some? ==> m'.native == Some(Receipt(Discarded, m.native.value.quote)) && m'.events == m.events + [Abandoned])
         else if !m.record.value.state.Prepared? then m' == m
         else
           var was := m.record.value;
           && m'.record.Some? && Cleared(was, m'.record.value)
           && (if was.receipt.Some? then
                 m.native.Some? && m'.native == Some(Receipt(Discarded, m.native.value.quote)) && m'.record.value.receipt == m'.native
                 && m'.events == m.events + [OwnerReleased, OwnerDiscarded]
               else m'.native == m.native && m'.events == m.events + [OwnerDiscarded])
  {
    var m := Exec(actions);
    InvHolds(actions);
    var m0 := Apply(m, Discard);
    var m1 := AdvanceFrom(m0, Silent);
    var m2 := AdvanceFrom(m1, Silent);
    if m0.pc.Releasing? {
      assert m1.pc.Discarding? && m2.pc.Idle?;
      assert RunOut(m0, Silent) == RunOut(m1, Silent) == RunOut(m2, Silent) == m2;
    } else if m0.pc.Discarding? {
      assert m1.pc.Idle?;
      assert RunOut(m0, Silent) == RunOut(m1, Silent) == m1;
    }
  }

  /** In every run a discarded record shows nothing, and the native change it held is released. */
  lemma {:induction false} DiscardedShowsNothing(actions: seq<Action>)
    requires Exec(actions).record.Some? && Exec(actions).record.value.state.Discarded? && !Exec(actions).record.value.kind.Other?
    ensures var r := Exec(actions).record.value; r.before.None? && r.affected == [] && r.newValue.None?
  {
    ClearedHolds(actions);
  }

  ghost predicate DiscardedIsClear(m: Machine) {
    && (m.record.Some? && m.record.value.state.Discarded? && !m.record.value.kind.Other? ==>
          m.record.value.before.None? && m.record.value.affected == [] && m.record.value.newValue.None?)
    && (m.pc.Answered? ==> m.record.Some? && (m.record.value.kind.Other? <==> m.pc.record.kind.Other?))
    && (m.pc.Answered? && !m.pc.record.kind.Other? ==> !m.pc.record.state.Discarded?)
    && (m.pc.Preparing? ==> m.pc.change.state.Prepared?)
  }

  lemma {:induction false} ClearedHolds(actions: seq<Action>)
    ensures DiscardedIsClear(Exec(actions))
  {
    if actions != [] {
      var m, action := Exec(actions[..|actions| - 1]), actions[|actions| - 1];
      ClearedHolds(actions[..|actions| - 1]);
      InvHolds(actions[..|actions| - 1]);
      if action.Advance? {
        ClearedOn(m, action.reply);
      }
    }
  }

  lemma ClearedOn(m: Machine, reply: Reply)
    requires DiscardedIsClear(m) && Inv(m)
    ensures DiscardedIsClear(AdvanceFrom(m, reply))
  {
    hide EventsFit;
  }

  /** A request is sent only once the record says durably that it may have been, and it asks
      for what the record says, under the operation's own key. */
  lemma {:induction false} RequestsSayTheChange(actions: seq<Action>, action: Action)
    ensures var m, m' := Exec(actions), Apply(Exec(actions), action);
      m'.events != m.events && m'.events[|m'.events| - 1].Requested? ==>
        && m.record.Some? && m.record.value.state.Committing?
        && var r := m.record.value;
           m'.events[|m'.events| - 1].sent ==
             if r.kind.Delete? then Forget("anda-bot/change/" + r.operation, r.target)
             else Revise("anda-bot/change/" + r.operation, r.target, if r.before.Some? then r.before.value else "", r.newValue, r.expiresAt)
  {
    InvHolds(actions);
    hide EventsFit;
  }

  /** What a commit asks Brain for depends on what it finds: each refusal leaves all as it is. */
  lemma {:induction false} RefusedChangesNothing(actions: seq<Action>, check: Check, reply: Reply)
    requires Exec(actions).pc.Idle? && Exec(actions).record.Some?
    requires !Proceeds(Exec(actions).record.value, Exec(actions).native, check)
    ensures RunOut(Apply(Exec(actions), Commit(check)), reply) == Exec(actions)
  {
    InvHolds(actions);
    hide EventsFit;
  }

  /** What becomes of the native change: a deletion's is released before Brain is asked, and
      any other kind keeps what its service answered. */
  lemma {:induction false} NativeExactly(actions: seq<Action>, check: Check, reply: Reply)
    requires Exec(actions).pc.Idle? && Exec(actions).record.Some?
    requires Proceeds(Exec(actions).record.value, Exec(actions).native, check)
    ensures var m := Exec(actions);
      var m' := RunOut(Apply(m, Commit(check)), reply);
      match m.record.value.kind
      case Delete => m.native.Some? && m'.native == Some(Receipt(Discarded, m.native.value.quote))
      case Misrecorded => m'.native == m.native
      case Other => m'.native == if reply.Native? then Some(reply.receipt) else m.native
  {
    InvHolds(actions);
    var m0 := Apply(Exec(actions), Commit(check));
    hide EventsFit;
    if m0.pc.Admitting? {
      NativeRuns(AdvanceFrom(m0, reply), reply);
    } else {
      NativeRuns(m0, reply);
    }
  }

  lemma NativeRuns(m: Machine, reply: Reply)
    requires m.record.Some? && (m.pc.ReleasingPreview? || m.pc.Repairing? || m.pc.AdmittingNative?)
    requires m.pc.ReleasingPreview? ==> m.native.Some? && (m.native.value.state.Prepared? || m.native.value.state.Discarded?)
    ensures var m' := RunOut(m, reply);
      && (m.pc.ReleasingPreview? ==> m'.native == Some(Receipt(Discarded, m.native.value.quote)))
      && (m.pc.Repairing? ==> m'.native == m.native)
      && (m.pc.AdmittingNative? ==> m'.native == if reply.Native? then Some(reply.receipt) else m.native)
  {
    var m1 := AdvanceFrom(m, reply);
    var m2 := AdvanceFrom(m1, reply);
    var m3 := AdvanceFrom(m2, reply);
    var m4 := AdvanceFrom(m3, reply);
    assert RunOut(m, reply) == RunOut(m1, reply) && RunOut(m1, reply) == RunOut(m2, reply);
    assert m2.pc.Idle? || RunOut(m2, reply) == RunOut(m3, reply);
    assert m2.pc.Idle? || m3.pc.Idle? || RunOut(m3, reply) == RunOut(m4, reply);
  }
}
