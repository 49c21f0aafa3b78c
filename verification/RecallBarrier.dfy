/** Receipts a conversation waits for, and the session that keeps them. */
module RecallBarrier {
  import opened Wrappers

  // ---------------------------------------------------------------- the kept session

  datatype Change = Record(receipt: string) | Acknowledge(receipts: set<string>)

  function Without(outstanding: seq<string>, receipts: set<string>): seq<string> {
    if outstanding == [] then []
    else (if outstanding[0] in receipts then [] else [outstanding[0]]) + Without(outstanding[1..], receipts)
  }

  function Changed(outstanding: seq<string>, c: Change): seq<string> {
    match c
    case Record(receipt) => if receipt in outstanding then outstanding else outstanding + [receipt]
    case Acknowledge(receipts) => Without(outstanding, receipts)
  }

  /** What is outstanding after these changes, one by one. */
  function Replay(changes: seq<Change>): seq<string> {
    if changes == [] then [] else Changed(Replay(changes[..|changes| - 1]), changes[|changes| - 1])
  }

  // ---------------------------------------------------------------- the machine

  /** A task waiting out its barrier, or rewriting a session: it has the lock it was given,
      then holds it, then has read the session. */
  datatype Task =
    | Looking(key: string, remaining: seq<string>, settled: set<string>)
    | Wanting(key: string, change: Change, mutex: nat)
    | Holding(key: string, change: Change, mutex: nat)
    | Writing(key: string, change: Change, mutex: nat, session: seq<string>)

  datatype Event = Looked(p: nat, receipt: string) | Recalled(p: nat) | Saved(p: nat, key: string, change: Change)

  /** `stored` is durable; `table` maps a key to its lock, weakly; `settled` are the receipts
      Brain has settled or erased. */
  datatype Machine = Machine(
    stored: map<string, seq<string>>, table: map<string, nat>, nextMutex: nat, tasks: map<nat, Task>, used: set<nat>,
    settled: set<string>, saved: map<string, seq<Change>>, events: seq<Event>)

  /** A receipt is recorded while Brain has not processed it, acknowledged once a recall saw
      it settled, and kept in a session that tasks rewrite under a lock. Every action is one
      atomic step of one task; `Crash` ends them all. */
  datatype Action =
    | RecordReceipt(p: nat, key: string, receipt: string)
    | BeginBarrier(p: nat, key: string)
    | Look(p: nat, expired: bool)
    | LookFails(p: nat)
    | Recall(p: nat, succeeds: bool)
    | Acquire(p: nat)
    | ReadSession(p: nat)
    | WriteSession(p: nat, succeeds: bool)
    | Settle(receipt: string)
    | Crash

  const Start := Machine(map[], map[], 0, map[], {}, {}, map[], [])

  function Outstanding(m: Machine, key: string): seq<string> { if key in m.stored then m.stored[key] else [] }

  function SavedFor(m: Machine, key: string): seq<Change> { if key in m.saved then m.saved[key] else [] }

  predicate HasLock(t: Task, mutex: nat) { !t.Looking? && t.mutex == mutex }

  /** Somebody still has the lock, so a weak reference to it upgrades. */
  predicate InUse(m: Machine, mutex: nat) { exists p :: p in m.tasks && HasLock(m.tasks[p], mutex) }

  predicate Held(m: Machine, mutex: nat) {
    exists p :: p in m.tasks && HasLock(m.tasks[p], mutex) && !m.tasks[p].Wanting?
  }

  /** The table without the locks nobody has. */
  function Retained(m: Machine): map<string, nat> { map k | k in m.table && InUse(m, m.table[k]) :: m.table[k] }

  /** Task `p` is given the lock of `key`. */
  function Lock(m: Machine, p: nat, key: string, change: Change): Machine {
    var table := Retained(m);
    var mutex := if key in table then table[key] else m.nextMutex;
    m.(table := table[key := mutex], nextMutex := if key in table then m.nextMutex else m.nextMutex + 1,
       tasks := m.tasks[p := Wanting(key, change, mutex)], used := m.used + {p})
  }

  function At(m: Machine, p: nat, t: Task): Machine { m.(tasks := m.tasks[p := t]) }

  function End(m: Machine, p: nat): Machine { m.(tasks := m.tasks - {p}) }

  function LookAt(m: Machine, p: nat, expired: bool): Machine
    requires p in m.tasks && m.tasks[p].Looking? && m.tasks[p].remaining != []
  {
    var t := m.tasks[p];
    if t.remaining[0] in m.settled then
      At(m.(events := m.events + [Looked(p, t.remaining[0])]), p,
         t.(remaining := t.remaining[1..], settled := t.settled + {t.remaining[0]}))
    else if expired then At(m, p, t.(remaining := t.remaining[1..]))
    else m
  }

  function Apply(m: Machine, action: Action): Machine {
    match action
    case RecordReceipt(p, key, receipt) => if p in m.used then m else Lock(m, p, key, Record(receipt))
    case BeginBarrier(p, key) =>
      if p in m.used then m else At(m, p, Looking(key, Outstanding(m, key), {})).(used := m.used + {p})
    case Look(p, expired) =>
      if p in m.tasks && m.tasks[p].Looking? && m.tasks[p].remaining != [] then LookAt(m, p, expired) else m
    case LookFails(p) => if p in m.tasks && m.tasks[p].Looking? then End(m, p) else m
    case Recall(p, succeeds) =>
      if !(p in m.tasks && m.tasks[p].Looking? && m.tasks[p].remaining == []) then m
      else if succeeds && m.tasks[p].settled != {} then
        Lock(m.(events := m.events + [Recalled(p)]), p, m.tasks[p].key, Acknowledge(m.tasks[p].settled))
      else End(m, p)
    case Acquire(p) =>
      if p in m.tasks && m.tasks[p].Wanting? && !Held(m, m.tasks[p].mutex)
      then At(m, p, Holding(m.tasks[p].key, m.tasks[p].change, m.tasks[p].mutex)) else m
    case ReadSession(p) =>
      if p in m.tasks && m.tasks[p].Holding? then
        var t := m.tasks[p];
        At(m, p, Writing(t.key, t.change, t.mutex, Changed(Outstanding(m, t.key), t.change)))
      else m
    case WriteSession(p, succeeds) =>
      if !(p in m.tasks && m.tasks[p].Writing?) then m
      else if !succeeds then End(m, p)
      else Store(m, p)
    case Settle(receipt) => m.(settled := m.settled + {receipt})
    case Crash => m.(table := map[], tasks := map[])
  }

  function Store(m: Machine, p: nat): Machine
    requires p in m.tasks && m.tasks[p].Writing?
  {
    var t := m.tasks[p];
    End(m.(stored := m.stored[t.key := t.session], saved := m.saved[t.key := SavedFor(m, t.key) + [t.change]],
           events := m.events + [Saved(p, t.key, t.change)]), p)
  }

  function Exec(actions: seq<Action>): Machine {
    if actions == [] then Start
    else Apply(Exec(actions[..|actions| - 1]), actions[|actions| - 1])
  }

  // ---------------------------------------------------------------- what every run keeps

  /** Everyone with the lock of a key has the lock the table names for it. */
  ghost predicate LockOk(m: Machine, p: nat) {
    p in m.tasks ==> p in m.used && (!m.tasks[p].Looking? ==> m.tasks[p].key in m.table && m.table[m.tasks[p].key] == m.tasks[p].mutex)
  }

  ghost predicate Apart(m: Machine, p: nat, q: nat) {
    p in m.tasks && q in m.tasks && p != q && InCritical(m.tasks[p]) && InCritical(m.tasks[q]) ==>
      m.tasks[p].mutex != m.tasks[q].mutex
  }

  predicate InCritical(t: Task) { t.Holding? || t.Writing? }

  ghost predicate SessionOk(m: Machine, p: nat) {
    p in m.tasks && m.tasks[p].Writing? ==> m.tasks[p].session == Changed(Outstanding(m, m.tasks[p].key), m.tasks[p].change)
  }

  ghost predicate Kept(m: Machine) { forall key :: Outstanding(m, key) == Replay(SavedFor(m, key)) }

  ghost predicate Inv(m: Machine) {
    && (forall p :: LockOk(m, p)) && (forall p, q :: Apart(m, p, q)) && (forall p :: SessionOk(m, p)) && Kept(m)
  }

  lemma ReplayOne(changes: seq<Change>, c: Change)
    ensures Replay(changes + [c]) == Changed(Replay(changes), c)
  {
    assert (changes + [c])[..|changes|] == changes;
  }

  lemma LockKeeps(m: Machine, p: nat, key: string, change: Change)
    requires Inv(m) && (p in m.tasks ==> m.tasks[p].Looking?)
    ensures Inv(Lock(m, p, key, change))
  {
    var m' := Lock(m, p, key, change);
    forall q
      ensures LockOk(m', q) && SessionOk(m', q)
    {
      assert LockOk(m, q) && SessionOk(m, q);
      if q != p && q in m.tasks && !m.tasks[q].Looking? {
        assert HasLock(m.tasks[q], m.tasks[q].mutex);
        assert InUse(m, m.tasks[q].mutex);
      }
    }
    assert forall a, b :: Apart(m, a, b) ==> Apart(m', a, b);
    assert forall k :: Outstanding(m', k) == Outstanding(m, k) && SavedFor(m', k) == SavedFor(m, k);
  }

  lemma StoreKeeps(m: Machine, p: nat)
    requires Inv(m) && p in m.tasks && m.tasks[p].Writing?
    ensures Inv(Store(m, p))
  {
    var m', t := Store(m, p), m.tasks[p];
    assert LockOk(m, p) && SessionOk(m, p);
    forall q
      ensures LockOk(m', q) && SessionOk(m', q)
    {
      assert LockOk(m, q) && SessionOk(m, q) && Apart(m, p, q);
    }
    assert forall a, b :: Apart(m, a, b) ==> Apart(m', a, b);
    ReplayOne(SavedFor(m, t.key), t.change);
    forall key
      ensures Outstanding(m', key) == Replay(SavedFor(m', key))
    {
      assert Outstanding(m, key) == Replay(SavedFor(m, key));
    }
  }

  lemma MoveKeeps(m: Machine, p: nat, t: Task)
    requires Inv(m) && p in m.tasks && t.Looking? == m.tasks[p].Looking?
    requires !t.Looking? ==> t.key == m.tasks[p].key && t.mutex == m.tasks[p].mutex && t.change == m.tasks[p].change
    requires InCritical(t) && !InCritical(m.tasks[p]) ==> !Held(m, t.mutex)
    requires t.Writing? ==> t.session == Changed(Outstanding(m, t.key), t.change)
    ensures Inv(At(m, p, t))
  {
    var m' := At(m, p, t);
    forall q
      ensures LockOk(m', q) && SessionOk(m', q)
    {
      assert LockOk(m, q) && SessionOk(m, q);
    }
    forall a, b
      ensures Apart(m', a, b)
    {
      assert Apart(m, a, b);
      assert a in m.tasks && InCritical(m.tasks[a]) ==> HasLock(m.tasks[a], m.tasks[a].mutex);
      assert b in m.tasks && InCritical(m.tasks[b]) ==> HasLock(m.tasks[b], m.tasks[b].mutex);
    }
    assert forall k :: Outstanding(m', k) == Outstanding(m, k) && SavedFor(m', k) == SavedFor(m, k);
  }

  lemma SameKeeps(m: Machine, m': Machine)
    requires Inv(m) && m'.stored == m.stored && m'.saved == m.saved && m.used <= m'.used
    requires forall p :: p in m'.tasks ==> (p in m.tasks && m'.tasks[p] == m.tasks[p]) || (m'.tasks[p].Looking? && p in m'.used)
    requires m'.table == m.table || m'.tasks == map[]
    ensures Inv(m')
  {
    forall q
      ensures LockOk(m', q) && SessionOk(m', q)
    {
      assert LockOk(m, q) && SessionOk(m, q);
    }
    assert forall a, b :: Apart(m, a, b) ==> Apart(m', a, b);
    assert forall k :: Outstanding(m', k) == Outstanding(m, k) && SavedFor(m', k) == SavedFor(m, k);
  }

  lemma ApplyKeeps(m: Machine, action: Action)
    requires Inv(m)
    ensures Inv(Apply(m, action))
  {
    hide Inv, Lock, Store, Changed;
    match action
    case RecordReceipt(p, key, receipt) => if p !in m.used { FreshIsNew(m, p); LockKeeps(m, p, key, Record(receipt)); }
    case BeginBarrier(p, key) => SameKeeps(m, Apply(m, action));
    case Look(p, expired) =>
      if p in m.tasks && m.tasks[p].Looking? && m.tasks[p].remaining != [] {
        UsedTasks(m, p);
        SameKeeps(m, Apply(m, action));
      }
    case LookFails(p) => SameKeeps(m, Apply(m, action));
    case Recall(p, succeeds) =>
      var m1 := m.(events := m.events + [Recalled(p)]);
      SameKeeps(m, m1);
      SameKeeps(m, End(m, p));
      if p in m.tasks && m.tasks[p].Looking? { LockKeeps(m1, p, m.tasks[p].key, Acknowledge(m.tasks[p].settled)); }
    case Acquire(p) =>
      if p in m.tasks && m.tasks[p].Wanting? && !Held(m, m.tasks[p].mutex) {
        MoveKeeps(m, p, Holding(m.tasks[p].key, m.tasks[p].change, m.tasks[p].mutex));
      }
    case ReadSession(p) =>
      if p in m.tasks && m.tasks[p].Holding? {
        var t := m.tasks[p];
        MoveKeeps(m, p, Writing(t.key, t.change, t.mutex, Changed(Outstanding(m, t.key), t.change)));
      }
    case WriteSession(p, succeeds) =>
      SameKeeps(m, End(m, p));
      if p in m.tasks && m.tasks[p].Writing? { StoreKeeps(m, p); }
    case Settle(receipt) => SameKeeps(m, Apply(m, action));
    case Crash => SameKeeps(m, Apply(m, action));
  }

  lemma UsedTasks(m: Machine, p: nat)
    requires Inv(m) && p in m.tasks
    ensures p in m.used
  {
    assert LockOk(m, p);
  }

  lemma FreshIsNew(m: Machine, p: nat)
    requires Inv(m) && p !in m.used
    ensures p !in m.tasks
  {
    assert LockOk(m, p);
  }

  lemma {:induction false} InvHolds(actions: seq<Action>)
    ensures Inv(Exec(actions))
  {
    if actions != [] {
      InvHolds(actions[..|actions| - 1]);
      ApplyKeeps(Exec(actions[..|actions| - 1]), actions[|actions| - 1]);
    } else {
      assert forall p :: LockOk(Start, p) && SessionOk(Start, p);
      assert forall p, q :: Apart(Start, p, q);
    }
  }

  // ---------------------------------------------------------------- over every run

  /** Two tasks that have the lock of one key have the same lock, and at most one is inside. */
  lemma {:induction false} OneLockPerKey(actions: seq<Action>, p: nat, q: nat)
    requires p in Exec(actions).tasks && q in Exec(actions).tasks && p != q
    requires !Exec(actions).tasks[p].Looking? && !Exec(actions).tasks[q].Looking?
    requires Exec(actions).tasks[p].key == Exec(actions).tasks[q].key
    ensures Exec(actions).tasks[p].mutex == Exec(actions).tasks[q].mutex
    ensures !(InCritical(Exec(actions).tasks[p]) && InCritical(Exec(actions).tasks[q]))
  {
    InvHolds(actions);
    assert LockOk(Exec(actions), p) && LockOk(Exec(actions), q) && Apart(Exec(actions), p, q);
  }

  /** A kept session is what the saved changes make of it one after another, in the order they
      were saved: no read-modify-write loses another's change. */
  lemma {:induction false} NoChangeIsLost(actions: seq<Action>, key: string)
    ensures Outstanding(Exec(actions), key) == Replay(SavedFor(Exec(actions), key))
  {
    InvHolds(actions);
  }

  lemma {:induction false} InWithout(outstanding: seq<string>, receipts: set<string>, r: string)
    ensures r in Without(outstanding, receipts) <==> r in outstanding && r !in receipts
  {
    if outstanding != [] {
      InWithout(outstanding[1..], receipts, r);
      assert outstanding == [outstanding[0]] + outstanding[1..];
    }
  }

  predicate Drops(c: Change, r: string) { c.Acknowledge? && r in c.receipts }

  /** Recorded at `i`, and not acknowledged since. */
  predicate KeptSince(changes: seq<Change>, r: string, i: nat) {
    && i < |changes| && changes[i] == Record(r)
    && forall j :: i < j < |changes| ==> !Drops(changes[j], r)
  }

  lemma KeptOn(before: seq<Change>, last: Change, r: string, i: nat)
    requires i < |before|
    ensures KeptSince(before + [last], r, i) <==> KeptSince(before, r, i) && !Drops(last, r)
  {
    var changes := before + [last];
    if KeptSince(changes, r, i) {
      forall j | i < j < |before|
        ensures !Drops(before[j], r)
      {
        assert changes[j] == before[j];
      }
      assert changes[|before|] == last;
    }
  }

  /** A receipt is outstanding exactly when it was recorded and not acknowledged since. */
  lemma {:induction false} OutstandingExactly(changes: seq<Change>, r: string)
    ensures r in Replay(changes) <==> exists i: nat :: KeptSince(changes, r, i)
  {
    if changes != [] {
      var before, last := changes[..|changes| - 1], changes[|changes| - 1];
      OutstandingExactly(before, r);
      ReplaysLast(before, last, r);
      assert changes == before + [last];
      hide Replay, KeptSince;
      if last == Record(r) {
        KeptAtLast(before, r);
      } else if r in Replay(changes) {
        var i: nat :| KeptSince(before, r, i);
        KeptWithin(before, r, i);
        KeptOn(before, last, r, i);
      } else {
        forall i: nat
          ensures !KeptSince(changes, r, i)
        {
          if i < |before| {
            KeptOn(before, last, r, i);
          } else {
            NotLast(before, last, r, i);
          }
        }
      }
    }
  }

  lemma ReplaysLast(before: seq<Change>, last: Change, r: string)
    ensures r in Replay(before + [last]) <==> last == Record(r) || (r in Replay(before) && !Drops(last, r))
  {
    ReplayOne(before, last);
    if last.Acknowledge? {
      InWithout(Replay(before), last.receipts, r);
    }
  }

  lemma KeptAtLast(before: seq<Change>, r: string)
    ensures KeptSince(before + [Record(r)], r, |before|)
  {
  }

  lemma KeptWithin(changes: seq<Change>, r: string, i: nat)
    requires KeptSince(changes, r, i)
    ensures i < |changes|
  {
  }

  lemma NotLast(before: seq<Change>, last: Change, r: string, i: nat)
    requires last != Record(r) && i >= |before|
    ensures !KeptSince(before + [last], r, i)
  {
  }

  // ---------------------------------------------------------------- why a receipt leaves

  /** `events` shows that turn `p` saw `r` settled, and that its recall then succeeded. */
  predicate SawThenRecalled(events: seq<Event>, p: nat, r: string) {
    exists i, j :: 0 <= i < j < |events| && events[i] == Looked(p, r) && events[j] == Recalled(p)
  }

  predicate Saw(events: seq<Event>, p: nat, r: string) { exists i :: 0 <= i < |events| && events[i] == Looked(p, r) }

  ghost predicate Justified(m: Machine, p: nat) {
    p in m.tasks ==>
      && (m.tasks[p].Looking? ==> forall r :: r in m.tasks[p].settled ==> Saw(m.events, p, r) && r in m.settled)
      && (!m.tasks[p].Looking? && m.tasks[p].change.Acknowledge? ==>
            forall r :: r in m.tasks[p].change.receipts ==> SawThenRecalled(m.events, p, r) && r in m.settled)
  }

  ghost predicate SavesJustified(m: Machine) {
    forall k :: 0 <= k < |m.events| && m.events[k].Saved? && m.events[k].change.Acknowledge? ==>
      forall r :: r in m.events[k].change.receipts ==> SawThenRecalled(m.events[..k], m.events[k].p, r) && r in m.settled
  }

  lemma JustifiedGrows(m: Machine, m': Machine, p: nat)
    requires Justified(m, p) && m.events <= m'.events && m.settled <= m'.settled
    requires p in m'.tasks ==> p in m.tasks && m'.tasks[p] == m.tasks[p]
    ensures Justified(m', p)
  {
    if p in m'.tasks && m.tasks[p].Looking? {
      forall r | r in m.tasks[p].settled
        ensures Saw(m'.events, p, r)
      {
        SawGrows(m.events, m'.events, p, r);
      }
    } else if p in m'.tasks && m.tasks[p].change.Acknowledge? {
      forall r | r in m.tasks[p].change.receipts
        ensures SawThenRecalled(m'.events, p, r)
      {
        SawGrows(m.events, m'.events, p, r);
      }
    }
  }

  lemma SawGrows(events: seq<Event>, more: seq<Event>, p: nat, r: string)
    requires events <= more
    ensures Saw(events, p, r) ==> Saw(more, p, r)
    ensures SawThenRecalled(events, p, r) ==> SawThenRecalled(more, p, r)
  {
    if Saw(events, p, r) {
      var i :| 0 <= i < |events| && events[i] == Looked(p, r);
      assert more[i] == Looked(p, r);
    }
    if SawThenRecalled(events, p, r) {
      var i, j :| 0 <= i < j < |events| && events[i] == Looked(p, r) && events[j] == Recalled(p);
      assert more[i] == Looked(p, r) && more[j] == Recalled(p);
    }
  }

  lemma LookJustified(m: Machine, p: nat, expired: bool)
    requires Justified(m, p) && p in m.tasks && m.tasks[p].Looking? && m.tasks[p].remaining != []
    ensures Justified(LookAt(m, p, expired), p)
  {
    var m' := LookAt(m, p, expired);
    forall r | r in m'.tasks[p].settled
      ensures Saw(m'.events, p, r) && r in m'.settled
    {
      if r in m.tasks[p].settled {
        SawGrows(m.events, m'.events, p, r);
      } else {
        assert m'.events[|m.events|] == Looked(p, m.tasks[p].remaining[0]);
      }
    }
  }

  lemma RecallJustified(m: Machine, p: nat)
    requires Justified(m, p) && p in m.tasks && m.tasks[p].Looking?
    ensures Justified(Lock(m.(events := m.events + [Recalled(p)]), p, m.tasks[p].key, Acknowledge(m.tasks[p].settled)), p)
  {
    var events := m.events + [Recalled(p)];
    forall r | r in m.tasks[p].settled
      ensures SawThenRecalled(events, p, r)
    {
      var i :| 0 <= i < |m.events| && m.events[i] == Looked(p, r);
      assert events[i] == Looked(p, r) && events[|m.events|] == Recalled(p);
    }
    hide InUse;
  }

  lemma TurnJustified(m: Machine, action: Action, p: nat)
    requires Justified(m, p) && LockOk(m, p) && !action.Look? && !action.Recall?
    requires var m' := Apply(m, action);
      m.events <= m'.events && p in m'.tasks && !(p in m.tasks && m'.tasks[p] == m.tasks[p])
    ensures Justified(Apply(m, action), p)
  {
    hide SawThenRecalled, Saw, Changed, LookAt;
  }

  lemma OwnJustified(m: Machine, action: Action, p: nat)
    requires Justified(m, p) && (forall q :: LockOk(m, q))
    ensures Justified(Apply(m, action), p)
  {
    var m' := Apply(m, action);
    EventsGrow(m, action);
    if p !in m'.tasks || (p in m.tasks && m'.tasks[p] == m.tasks[p]) {
      JustifiedGrows(m, m', p);
    } else if action.Look? {
      LookJustified(m, p, action.expired);
    } else if action.Recall? {
      RecallJustified(m, p);
    } else {
      TurnJustified(m, action, p);
    }
  }

  lemma EventsGrow(m: Machine, action: Action)
    ensures m.events <= Apply(m, action).events && m.settled <= Apply(m, action).settled
  {
  }

  lemma {:induction false} JustifiedHolds(actions: seq<Action>)
    ensures (forall p :: Justified(Exec(actions), p)) && SavesJustified(Exec(actions))
  {
    if actions != [] {
      var m, action := Exec(actions[..|actions| - 1]), actions[|actions| - 1];
      JustifiedHolds(actions[..|actions| - 1]);
      InvHolds(actions[..|actions| - 1]);
      forall p
        ensures Justified(Apply(m, action), p)
      {
        OwnJustified(m, action, p);
      }
      SavesStayJustified(m, action);
    }
  }

  lemma SavesStayJustified(m: Machine, action: Action)
    requires SavesJustified(m) && forall p :: Justified(m, p)
    ensures SavesJustified(Apply(m, action))
  {
    var m' := Apply(m, action);
    EventsGrow(m, action);
    forall k | 0 <= k < |m'.events| && m'.events[k].Saved? && m'.events[k].change.Acknowledge?
      ensures forall r :: r in m'.events[k].change.receipts ==>
                SawThenRecalled(m'.events[..k], m'.events[k].p, r) && r in m'.settled
    {
      if k < |m.events| {
        assert m'.events[k] == m.events[k] && m'.events[..k] == m.events[..k];
      } else {
        assert action.WriteSession? && Justified(m, action.p) && m'.events[..k] == m.events;
      }
    }
  }

  /** A receipt is acknowledged only by a turn that saw it settled before its recall, which
      succeeded; and Brain had settled it. */
  lemma {:induction false} LeavesOnlyAfterRecall(actions: seq<Action>, k: nat, r: string)
    requires k < |Exec(actions).events| && Exec(actions).events[k].Saved?
    requires Exec(actions).events[k].change.Acknowledge? && r in Exec(actions).events[k].change.receipts
    ensures SawThenRecalled(Exec(actions).events[..k], Exec(actions).events[k].p, r) && r in Exec(actions).settled
  {
    JustifiedHolds(actions);
  }

  // ---------------------------------------------------------------- the host's code

  const POLL_MS := 200

  datatype Phase = Recorded | Processed | Gone | Unreadable

  datatype Barrier = Barrier(settled: seq<string>, pending: seq<string>)

  /** Every receipt went to exactly one side, in its order. */
  predicate Divides(outstanding: seq<string>, b: Barrier) {
    if outstanding == [] then b == Barrier([], [])
    else
      var last, rest := outstanding[|outstanding| - 1], outstanding[..|outstanding| - 1];
      || (b.settled != [] && b.settled[|b.settled| - 1] == last && Divides(rest, b.(settled := b.settled[..|b.settled| - 1])))
      || (b.pending != [] && b.pending[|b.pending| - 1] == last && Divides(rest, b.(pending := b.pending[..|b.pending| - 1])))
  }

  lemma {:induction false} DividesCounts(outstanding: seq<string>, b: Barrier)
    requires Divides(outstanding, b)
    ensures multiset(b.settled) + multiset(b.pending) == multiset(outstanding)
  {
    if outstanding != [] {
      var rest := outstanding[..|outstanding| - 1];
      assert outstanding == rest + [outstanding[|outstanding| - 1]];
      if b.settled != [] && Divides(rest, b.(settled := b.settled[..|b.settled| - 1]))
         && b.settled[|b.settled| - 1] == outstanding[|outstanding| - 1] {
        assert b.settled == b.settled[..|b.settled| - 1] + [outstanding[|outstanding| - 1]];
        DividesCounts(rest, b.(settled := b.settled[..|b.settled| - 1]));
      } else {
        assert b.pending == b.pending[..|b.pending| - 1] + [outstanding[|outstanding| - 1]];
        DividesCounts(rest, b.(pending := b.pending[..|b.pending| - 1]));
      }
    }
  }

  /** What a read of a receipt that begins at a time finds, and how long it takes. */
  datatype Reading = Reading(phase: Phase, taken: nat)

  type Look = (string, nat) -> Reading

  predicate SettledAt(look: Look, r: string, t: nat) { look(r, t).phase.Processed? || look(r, t).phase.Gone? }

  ghost predicate SettledBy(look: Look, r: string, now: nat) {
    exists t: nat :: t + look(r, t).taken <= now && SettledAt(look, r, t)
  }

  /** A read that ended at the deadline or later still found it recorded. */
  ghost predicate RecordedPast(look: Look, r: string, deadline: nat) {
    exists t: nat :: t + look(r, t).taken >= deadline && look(r, t).phase.Recorded?
  }

  ghost predicate ReadsWithin(look: Look, slow: nat) { forall r, t: nat :: look(r, t).taken <= slow }

  function ReadTime(slow: nat, count: nat): nat { slow * count }

  /** Looks at each outstanding receipt until Brain is done with it or the wait is over. A
      receipt is looked at even when the wait already is; `None` is an error reading one. Past
      the deadline there is at most one poll, and one read of each receipt. */
  method MemoryBarrier(outstanding: seq<string>, start: nat, wait: nat, look: Look, ghost slow: nat)
    returns (barrier: Option<Barrier>, now: nat)
    ensures now >= start
    ensures barrier.Some? ==> Divides(outstanding, barrier.value)
    ensures barrier.Some? ==> forall r :: r in barrier.value.settled ==> SettledBy(look, r, now)
    ensures barrier.Some? ==> forall r :: r in barrier.value.pending ==> RecordedPast(look, r, start + wait)
    ensures barrier.None? ==> exists r, t: nat :: r in outstanding && look(r, t).phase.Unreadable?
    ensures ReadsWithin(look, slow) ==> now < start + wait + POLL_MS + ReadTime(slow, |outstanding|)
  {
    hide ReadTime;
    var deadline := start + wait;
    var b := Barrier([], []);
    now := start;
    for k := 0 to |outstanding|
      invariant start <= now
      invariant ReadsWithin(look, slow) ==> now < deadline + POLL_MS + ReadTime(slow, k)
      invariant Divides(outstanding[..k], b)
      invariant forall r :: r in b.settled ==> SettledBy(look, r, now)
      invariant forall r :: r in b.pending ==> RecordedPast(look, r, deadline)
    {
      var receipt := outstanding[k];
      assert outstanding[..k + 1] == outstanding[..k] + [receipt];
      OneMoreRead(slow, k);
      MoreReads(slow, k + 1, |outstanding|);
      var done := false;
      while !done
        invariant start <= now
        invariant ReadsWithin(look, slow) ==> now < deadline + POLL_MS + ReadTime(slow, if done then k + 1 else k)
        invariant forall r :: r in b.settled ==> SettledBy(look, r, now)
        invariant forall r :: r in b.pending ==> RecordedPast(look, r, deadline)
        invariant Divides(outstanding[..if done then k + 1 else k], b)
        decreases !done, deadline - now
      {
        var reading, began := look(receipt, now), now;
        now := now + reading.taken;
        if reading.phase.Unreadable? {
          return None, now;
        }
        if !reading.phase.Recorded? {
          assert SettledAt(look, receipt, began);
          b := b.(settled := b.settled + [receipt]);
          done := true;
        } else if now >= deadline {
          assert began + look(receipt, began).taken >= deadline;
          b := b.(pending := b.pending + [receipt]);
          done := true;
        } else {
          now := now + POLL_MS;
        }
      }
    }
    assert outstanding[..|outstanding|] == outstanding;
    return Some(b), now;
  }

  lemma {:induction false} MoreReads(slow: nat, k: nat, n: nat)
    requires k <= n
    ensures ReadTime(slow, k) <= ReadTime(slow, n)
  {
    if k < n {
      OneMoreRead(slow, n - 1);
      MoreReads(slow, k, n - 1);
    }
  }

  lemma OneMoreRead(slow: nat, k: nat)
    ensures ReadTime(slow, k + 1) == ReadTime(slow, k) + slow
  {
  }

  /** The journal's locks and its kept sessions; `strong` are the locks somebody has. */
  class Sessions {
    var locks: map<string, nat>
    var nextLock: nat
    var stored: map<string, seq<string>>
    ghost var changes: map<string, seq<Change>>

    ghost predicate Valid()
      reads this
    {
      forall key :: (if key in stored then stored[key] else []) == Replay(if key in changes then changes[key] else [])
    }

    constructor ()
      ensures Valid() && stored == map[] && changes == map[] && locks == map[]
    {
      locks, nextLock, stored, changes := map[], 0, map[], map[];
    }

    /** A key's lock lives as long as somebody has it, whatever other keys come and go. */
    method FormationLock(key: string, strong: set<nat>) returns (lock: nat)
      modifies `locks, `nextLock
      ensures key in locks && locks[key] == lock
      ensures key in old(locks) && old(locks)[key] in strong ==> lock == old(locks)[key]
      ensures !(key in old(locks) && old(locks)[key] in strong) ==> lock == old(nextLock) && nextLock == lock + 1
      ensures forall k :: k != key ==>
                (k in locks <==> k in old(locks) && old(locks)[k] in strong) && (k in locks ==> locks[k] == old(locks)[k])
    {
      locks := map k | k in locks && locks[k] in strong :: locks[k];
      if key in locks {
        return locks[key];
      }
      lock := nextLock;
      locks, nextLock := locks[key := lock], nextLock + 1;
    }

    /** One change under the key's lock. */
    method UpdateMemorySession(key: string, change: Change, saves: bool) returns (ok: bool)
      requires Valid()
      modifies `stored, `changes
      ensures Valid() && ok == saves
      ensures var was := if key in old(changes) then old(changes)[key] else [];
        changes == if saves then old(changes)[key := was + [change]] else old(changes)
      ensures !saves ==> stored == old(stored)
    {
      var session := if key in stored then stored[key] else [];
      match change {
        case Record(receipt) =>
          if receipt !in session {
            session := session + [receipt];
          }
        case Acknowledge(receipts) =>
          session := Without(session, receipts);
      }
      if !saves {
        return false;
      }
      ghost var was := if key in changes then changes[key] else [];
      ReplayOne(was, change);
      stored, changes := stored[key := session], changes[key := was + [change]];
      return true;
    }
  }
}
