/** What one turn does to the receipts a conversation waits for.

    A turn here is one nobody interrupts: it records a receipt, or it waits for those there are,
    recalls and acknowledges. The lemmas say what is outstanding then, and of the locks which are
    kept and that no two conversations share one. They say nothing of interleavings, which
    `RecallBarrier` treats. */
module RecallTurns {
  import opened RecallBarrier

  function Run(m: Machine, actions: seq<Action>): Machine
    decreases |actions|
  {
    if actions == [] then m else Run(Apply(m, actions[0]), actions[1..])
  }

  lemma {:induction false} RunOn(m: Machine, first: seq<Action>, more: seq<Action>)
    ensures Run(m, first + more) == Run(Run(m, first), more)
    decreases |first|
  {
    if first == [] {
      assert first + more == more;
    } else {
      assert (first + more)[1..] == first[1..] + more;
      RunOn(Apply(m, first[0]), first[1..], more);
    }
  }

  lemma RunOne(m: Machine, a: Action)
    ensures Run(m, [a]) == Apply(m, a)
  {
    assert [a][1..] == [];
    assert Run(Apply(m, a), []) == Apply(m, a);
  }

  lemma RunThree(m: Machine, a: Action, b: Action, c: Action)
    ensures Run(m, [a, b, c]) == Apply(Apply(Apply(m, a), b), c)
  {
    hide Apply;
    assert [a, b, c] == [a] + [b] + [c];
    RunOn(m, [a] + [b], [c]);
    RunOn(m, [a], [b]);
    RunOne(m, a);
    RunOne(Apply(m, a), b);
    RunOne(Apply(Apply(m, a), b), c);
  }

  /** Nobody is inside a lock. */
  predicate Free(m: Machine) {
    forall q :: q in m.tasks ==> m.tasks[q].Looking? || m.tasks[q].Wanting?
  }

  /** Of all conversations only that of `key` is kept otherwise, and no other task is touched. */
  predicate OnlyKey(m: Machine, m': Machine, key: string, p: nat) {
    m'.stored - {key} == m.stored - {key} && m'.settled == m.settled && m'.tasks == m.tasks - {p}
  }

  function Rewriting(p: nat, succeeds: bool): seq<Action> { [Acquire(p), ReadSession(p), WriteSession(p, succeeds)] }

  /** A task that wants its key's lock rewrites the session with its change, if the save
      succeeds. */
  lemma RewritesSession(m: Machine, p: nat, succeeds: bool)
    requires p in m.tasks && m.tasks[p].Wanting? && Free(m)
    ensures var t, m' := m.tasks[p], Run(m, Rewriting(p, succeeds));
      && OnlyKey(m, m', t.key, p)
      && if succeeds then
           t.key in m'.stored && m'.stored[t.key] == Changed(Outstanding(m, t.key), t.change)
           && m'.events == m.events + [Saved(p, t.key, t.change)]
         else m'.stored == m.stored && m'.events == m.events
  {
    var t := m.tasks[p];
    hide Changed;
    var m1 := Apply(m, Acquire(p));
    assert m1.tasks[p] == Task.Holding(t.key, t.change, t.mutex);
    var m2 := Apply(m1, ReadSession(p));
    assert m2.tasks[p] == Task.Writing(t.key, t.change, t.mutex, Changed(Outstanding(m, t.key), t.change));
    var m3 := Apply(m2, WriteSession(p, succeeds));
    RunThree(m, Acquire(p), ReadSession(p), WriteSession(p, succeeds));
  }

  /** A receipt that is recorded is outstanding after all those that were, unless it was one
      of them already; a save that fails leaves them as they were. */
  lemma RecordTurn(m: Machine, p: nat, key: string, receipt: string, succeeds: bool)
    requires p !in m.used && p !in m.tasks && Free(m)
    ensures var m', was := Run(m, [RecordReceipt(p, key, receipt)] + Rewriting(p, succeeds)), Outstanding(m, key);
      && OnlyKey(m, m', key, p)
      && Outstanding(m', key) == if succeeds && receipt !in was then was + [receipt] else was
  {
    var first := RecordReceipt(p, key, receipt);
    RunOn(m, [first], Rewriting(p, succeeds));
    RunOne(m, first);
    RewritesSession(Apply(m, first), p, succeeds);
  }

  function Looks(p: nat, n: nat): seq<Action> { if n == 0 then [] else [Look(p, true)] + Looks(p, n - 1) }

  /** Looking at all that remains, once the wait is over, sorts out what Brain has settled. */
  lemma {:induction false} LooksThrough(m: Machine, p: nat)
    requires p in m.tasks && m.tasks[p].Looking?
    ensures var t, m' := m.tasks[p], Run(m, Looks(p, |m.tasks[p].remaining|));
      && p in m'.tasks && m'.tasks == m.tasks[p := m'.tasks[p]] && m'.stored == m.stored && m'.settled == m.settled
      && m'.tasks[p].Looking? && m'.tasks[p].key == t.key && m'.tasks[p].remaining == []
      && forall r :: r in m'.tasks[p].settled <==> r in t.settled || (r in t.remaining && r in m.settled)
    decreases |m.tasks[p].remaining|
  {
    var t := m.tasks[p];
    if t.remaining != [] {
      var n := |t.remaining|;
      assert Looks(p, n)[0] == Look(p, true) && Looks(p, n)[1..] == Looks(p, n - 1);
      var m1 := Apply(m, Look(p, true));
      assert t.remaining == [t.remaining[0]] + t.remaining[1..];
      LookSorts(m, p);
      hide Apply;
      LooksThrough(m1, p);
    }
  }

  lemma LookSorts(m: Machine, p: nat)
    requires p in m.tasks && m.tasks[p].Looking? && m.tasks[p].remaining != []
    ensures var t, m' := m.tasks[p], Apply(m, Look(p, true));
      && p in m'.tasks && m'.tasks == m.tasks[p := m'.tasks[p]] && m'.stored == m.stored && m'.settled == m.settled
      && m'.tasks[p] == Looking(t.key, t.remaining[1..],
                                if t.remaining[0] in m.settled then t.settled + {t.remaining[0]} else t.settled)
  {
  }

  lemma {:induction false} WithoutKeeps(outstanding: seq<string>, receipts: set<string>)
    ensures forall r :: r in Without(outstanding, receipts) <==> r in outstanding && r !in receipts
    ensures (forall r :: r in outstanding ==> r !in receipts) ==> Without(outstanding, receipts) == outstanding
  {
    if outstanding != [] {
      WithoutKeeps(outstanding[1..], receipts);
      assert outstanding == [outstanding[0]] + outstanding[1..];
    }
  }

  function RecallActions(p: nat, key: string, n: nat, recalls: bool, succeeds: bool): seq<Action> {
    [BeginBarrier(p, key)] + Looks(p, n) + [Recall(p, recalls)] + Rewriting(p, succeeds)
  }

  /** A turn that waits and recalls leaves outstanding exactly what Brain had not settled; if
      the recall or the save fails, everything stays outstanding. */
  lemma RecallTurn(m: Machine, p: nat, key: string, recalls: bool, succeeds: bool)
    requires p !in m.used && p !in m.tasks && Free(m)
    ensures var was := Outstanding(m, key);
      var m' := Run(m, RecallActions(p, key, |was|, recalls, succeeds));
      && OnlyKey(m, m', key, p)
      && if recalls && succeeds then forall r :: r in Outstanding(m', key) <==> r in was && r !in m.settled
         else Outstanding(m', key) == was
  {
    var was := Outstanding(m, key);
    var begin, looks, recall := BeginBarrier(p, key), Looks(p, |was|), Recall(p, recalls);
    var m1 := Apply(m, begin);
    RunOne(m, begin);
    LooksThrough(m1, p);
    var m2 := Run(m1, looks);
    var m3 := Apply(m2, recall);
    RunOne(m2, recall);
    RunOn(m, [begin], looks);
    RunOn(m, [begin] + looks, [recall]);
    RunOn(m, [begin] + looks + [recall], Rewriting(p, succeeds));
    AfterRecall(m2, p, recalls, succeeds);
  }

  lemma AfterRecall(m: Machine, p: nat, recalls: bool, succeeds: bool)
    requires p in m.tasks && m.tasks[p].Looking? && m.tasks[p].remaining == [] && Free(m)
    ensures var t, m' := m.tasks[p], Run(Apply(m, Recall(p, recalls)), Rewriting(p, succeeds));
      && OnlyKey(m, m', t.key, p)
      && if recalls && succeeds then forall r :: r in Outstanding(m', t.key) <==> r in Outstanding(m, t.key) && r !in t.settled
         else Outstanding(m', t.key) == Outstanding(m, t.key)
  {
    var t, m1 := m.tasks[p], Apply(m, Recall(p, recalls));
    WithoutKeeps(Outstanding(m, t.key), t.settled);
    if recalls && t.settled != {} {
      RewritesSession(m1, p, succeeds);
    } else {
      GoneDoesNothing(m1, p, succeeds);
    }
  }

  lemma GoneDoesNothing(m: Machine, p: nat, succeeds: bool)
    requires p !in m.tasks
    ensures Run(m, Rewriting(p, succeeds)) == m
  {
    RunThree(m, Acquire(p), ReadSession(p), WriteSession(p, succeeds));
  }

  /** A look that finds a receipt unsettled waits, until the wait is over. */
  lemma LookWaits(m: Machine, p: nat)
    requires p in m.tasks && m.tasks[p].Looking? && m.tasks[p].remaining != [] && m.tasks[p].remaining[0] !in m.settled
    ensures Apply(m, Look(p, false)) == m
  {
  }

  /** A failed look ends its turn; a death ends all of them and forgets the locks; Brain
      settles receipts. None of them changes what is kept. */
  lemma EndsTurns(m: Machine, p: nat, receipt: string)
    ensures p in m.tasks && m.tasks[p].Looking? ==> Apply(m, LookFails(p)) == m.(tasks := m.tasks - {p})
    ensures var m' := Apply(m, Crash); m'.tasks == map[] && m'.table == map[] && m'.stored == m.stored && m'.settled == m.settled
    ensures Apply(m, RecallBarrier.Settle(receipt)) == m.(settled := m.settled + {receipt})
  {
  }

  /** A recall waits until every receipt was looked at, and only a turn that is looking can
      fail to look. */
  lemma WaitsForLooks(m: Machine, p: nat, succeeds: bool)
    ensures p in m.tasks && m.tasks[p].Looking? && m.tasks[p].remaining != [] ==> Apply(m, Recall(p, succeeds)) == m
    ensures !(p in m.tasks && m.tasks[p].Looking?) ==> Apply(m, LookFails(p)) == m
  {
  }

  /** A lock is kept in the table exactly as long as some task has it, or it was just given. */
  lemma PrunesExactly(m: Machine, p: nat, key: string, receipt: string)
    requires p !in m.used
    ensures var m' := Apply(m, RecordReceipt(p, key, receipt));
      forall k :: k in m'.table <==>
        k == key || (k in m.table && exists q :: q in m.tasks && !m.tasks[q].Looking? && m.tasks[q].mutex == m.table[k])
  {
    var m' := Apply(m, RecordReceipt(p, key, receipt));
    forall k
      ensures k in m'.table <==> k == key || (k in m.table && InUse(m, m.table[k]))
    {
    }
    forall k | k in m.table
      ensures InUse(m, m.table[k]) <==> exists q :: q in m.tasks && !m.tasks[q].Looking? && m.tasks[q].mutex == m.table[k]
    {
      if q :| q in m.tasks && !m.tasks[q].Looking? && m.tasks[q].mutex == m.table[k] {
        assert HasLock(m.tasks[q], m.table[k]);
      }
    }
  }

  /** Every lock that was ever given out is older than the next. */
  ghost predicate TableFits(m: Machine) {
    && (forall k :: k in m.table ==> m.table[k] < m.nextMutex)
    && (forall k, l :: k in m.table && l in m.table && k != l ==> m.table[k] != m.table[l])
  }

  lemma {:induction false} TableHolds(actions: seq<Action>)
    ensures TableFits(Exec(actions))
  {
    if actions != [] {
      var m, action := Exec(actions[..|actions| - 1]), actions[|actions| - 1];
      TableHolds(actions[..|actions| - 1]);
      TableOn(m, action);
    }
  }

  lemma TableOn(m: Machine, action: Action)
    requires TableFits(m)
    ensures TableFits(Apply(m, action))
  {
    hide InUse, Changed, Outstanding;
  }

  /** Tasks of different conversations never wait for each other's lock. */
  lemma {:induction false} LocksDiffer(actions: seq<Action>, p: nat, q: nat)
    requires var m := Exec(actions); p in m.tasks && q in m.tasks && !m.tasks[p].Looking? && !m.tasks[q].Looking?
    ensures Exec(actions).tasks[p].mutex == Exec(actions).tasks[q].mutex <==> Exec(actions).tasks[p].key == Exec(actions).tasks[q].key
  {
    InvHolds(actions);
    TableHolds(actions);
    assert LockOk(Exec(actions), p) && LockOk(Exec(actions), q);
  }

  /** A run goes on step by step. */
  lemma RunsGoOn(actions: seq<Action>, action: Action)
    ensures Exec([]) == Start && Exec(actions + [action]) == Apply(Exec(actions), action)
  {
    assert (actions + [action])[..|actions|] == actions;
  }
}
