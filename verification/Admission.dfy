/** The maintenance lease: permits for running work, and a token that holds new work back. */
module Admission {
  import opened Wrappers

  const LEASE_TIME := 90_000

  datatype Lease = Lease(token: string, until: nat)

  datatype Event =
    | Entered(permit: nat, at: nat)
    | Begun(token: string, at: nat)
    | Renewed(token: string, at: nat)
    | Released(token: string, at: nat)

  /** `permits` are the permits alive and `clock` the time of the last operation. `Last` reads
      the lease off the history of what succeeded, and says when every operation must succeed;
      the gate keeps only a token, a deadline and a count. */
  datatype Machine = Machine(lease: Option<Lease>, active: nat, permits: set<nat>, clock: nat, events: seq<Event>)

  datatype Operation =
    | Enter(permit: nat)
    | EnterExisting(permit: nat)
    | Drop(permit: nat)
    | Begin(token: string)
    | Renew(token: string)
    | Release(token: string)
    | Status

  /** An operation, `wait` after the one before it. */
  datatype Action = Action(operation: Operation, wait: nat)

  const Start := Machine(None, 0, {}, 0, [])

  function Expire(lease: Option<Lease>, now: nat): Option<Lease> {
    if lease.Some? && lease.value.until <= now then None else lease
  }

  function Admit(m: Machine, permit: nat): Machine {
    m.(active := m.active + 1, permits := m.permits + {permit})
  }

  function Hold(m: Machine, token: string, event: Event): Machine {
    m.(lease := Some(Lease(token, m.clock + LEASE_TIME)), events := m.events + [event])
  }

  predicate Owns(m: Machine, token: string) { m.lease.Some? && m.lease.value.token == token }

  predicate Used(events: seq<Event>, token: string) { exists i :: 0 <= i < |events| && events[i].Begun? && events[i].token == token }

  /** New permits and new tokens are fresh; a permit is dropped once. */
  predicate Enabled(m: Machine, o: Operation) {
    match o
    case Enter(permit) => permit !in m.permits
    case EnterExisting(permit) => permit !in m.permits
    case Drop(permit) => permit in m.permits
    case Begin(token) => !Used(m.events, token)
    case _ => true
  }

  /** The gate at the time of the operation; entering existing work and leaving do not look
      at the lease. */
  function Tick(m: Machine, action: Action): Machine {
    var now := m.clock + action.wait;
    if action.operation.EnterExisting? || action.operation.Drop? then m.(clock := now)
    else m.(clock := now, lease := Expire(m.lease, now))
  }

  function Perform(m: Machine, o: Operation): Machine {
    match o
    case Enter(permit) =>
      if m.lease.Some? then m else Admit(m.(events := m.events + [Entered(permit, m.clock)]), permit)
    case EnterExisting(permit) => Admit(m, permit)
    case Drop(permit) => if m.active == 0 then m else m.(active := m.active - 1, permits := m.permits - {permit})
    case Begin(token) => if m.lease.Some? then m else Hold(m, token, Begun(token, m.clock))
    case Renew(token) => if Owns(m, token) then Hold(m, token, Renewed(token, m.clock)) else m
    case Release(token) =>
      if Owns(m, token) then m.(lease := None, events := m.events + [Released(token, m.clock)]) else m
    case Status => m
  }

  function Apply(m: Machine, action: Action): Machine {
    if Enabled(m, action.operation) then Perform(Tick(m, action), action.operation) else m
  }

  function Exec(actions: seq<Action>): Machine {
    if actions == [] then Start
    else Apply(Exec(actions[..|actions| - 1]), actions[|actions| - 1])
  }

  // ---------------------------------------------------------------- what the history says

  /** The lease the history left: 90 seconds from the last begin or renewal, unless released. */
  function Last(events: seq<Event>): Option<Lease> {
    if events == [] then None
    else
      var e := events[|events| - 1];
      match e
      case Entered(_, _) => Last(events[..|events| - 1])
      case Released(_, _) => None
      case _ => Some(Lease(e.token, e.at + LEASE_TIME))
  }

  /** Who holds new work back at `now`. */
  function Holder(events: seq<Event>, now: nat): Option<string> {
    var last := Last(events);
    if last.Some? && now < last.value.until then Some(last.value.token) else None
  }

  /** An event that may come next: an entry and a begin only while nobody holds the lease, a
      renewal and a release only by its holder, and no token twice. */
  predicate MayCome(events: seq<Event>, e: Event) {
    match e
    case Entered(_, at) => Holder(events, at).None?
    case Begun(token, at) => Holder(events, at).None? && !Used(events, token)
    case Renewed(token, at) => Holder(events, at) == Some(token)
    case Released(token, at) => Holder(events, at) == Some(token)
  }

  ghost predicate Story(events: seq<Event>, clock: nat) {
    && (forall j :: 0 <= j < |events| ==> events[j].at <= clock && MayCome(events[..j], events[j]))
    && (forall i, j :: 0 <= i < j < |events| ==> events[i].at <= events[j].at)
  }

  /** The gate's lease is the history's, which may have run out. */
  predicate Agrees(lease: Option<Lease>, last: Option<Lease>, clock: nat) {
    && (lease.Some? ==> last == lease)
    && (lease.None? && last.Some? ==> last.value.until <= clock)
  }

  ghost predicate Inv(m: Machine) {
    m.active == |m.permits| && Agrees(m.lease, Last(m.events), m.clock) && Story(m.events, m.clock)
  }

  lemma Append(events: seq<Event>, clock: nat, e: Event)
    requires Story(events, clock) && MayCome(events, e) && e.at == clock
    ensures Story(events + [e], clock)
  {
    hide MayCome;
    var more := events + [e];
    forall j | 0 <= j < |more|
      ensures MayCome(more[..j], more[j])
    {
      assert more[..j] == events[..j];
      assert events[..|events|] == events;
    }
  }

  lemma TickKeeps(m: Machine, action: Action)
    requires Inv(m)
    ensures Inv(Tick(m, action))
  {
    hide MayCome, Last;
  }

  lemma LastAppended(events: seq<Event>, e: Event)
    ensures Last(events + [e]) == match e
                                  case Entered(_, _) => Last(events)
                                  case Released(_, _) => None
                                  case _ => Some(Lease(e.token, e.at + LEASE_TIME))
  {
    assert (events + [e])[..|events|] == events;
  }

  function Emitted(m: Machine, o: Operation): Event {
    match o
    case Begin(token) => Begun(token, m.clock)
    case Renew(token) => Renewed(token, m.clock)
    case Release(token) => Released(token, m.clock)
    case Enter(permit) => Entered(permit, m.clock)
    case _ => Entered(0, m.clock)
  }

  lemma PerformKeeps(m: Machine, o: Operation)
    requires Inv(m) && Enabled(m, o)
    requires o.EnterExisting? || o.Drop? || m.lease == Expire(m.lease, m.clock)
    ensures Inv(Perform(m, o))
  {
    hide Story, Last;
    var m' := Perform(m, o);
    if m'.events != m.events {
      Append(m.events, m.clock, Emitted(m, o));
      LastAppended(m.events, Emitted(m, o));
    }
  }

  lemma ApplyKeeps(m: Machine, action: Action)
    requires Inv(m)
    ensures Inv(Apply(m, action))
  {
    if Enabled(m, action.operation) {
      TickKeeps(m, action);
      hide Inv;
      PerformKeeps(Tick(m, action), action.operation);
    }
  }

  lemma {:induction false} InvHolds(actions: seq<Action>)
    ensures Inv(Exec(actions))
  {
    if actions != [] {
      InvHolds(actions[..|actions| - 1]);
      ApplyKeeps(Exec(actions[..|actions| - 1]), actions[|actions| - 1]);
    }
  }

  // ---------------------------------------------------------------- the lease over every run

  /** The count is the number of permits alive. */
  lemma {:induction false} CountsPermits(actions: seq<Action>)
    ensures Exec(actions).active == |Exec(actions).permits|
  {
    InvHolds(actions);
  }

  predicate Succeeds(m: Machine, action: Action) { |Apply(m, action).events| > |m.events| }

  /** An entry or a begin succeeds exactly when the history leaves no holder, and a renewal or
      release exactly for the holder it leaves. */
  lemma {:induction false} SucceedsByHistory(actions: seq<Action>, action: Action)
    requires Enabled(Exec(actions), action.operation)
    ensures var m := Exec(actions);
      var holder := Holder(m.events, m.clock + action.wait);
      match action.operation
      case Enter(_) => Succeeds(m, action) <==> holder.None?
      case Begin(_) => Succeeds(m, action) <==> holder.None?
      case Renew(token) => Succeeds(m, action) <==> holder == Some(token)
      case Release(token) => Succeeds(m, action) <==> holder == Some(token)
      case _ => !Succeeds(m, action)
  {
    InvHolds(actions);
  }

  predicate Grants(e: Event) { e.Begun? || e.Renewed? }

  /** Nothing enters between a begin or renewal and the earlier of a release or 90 seconds
      after the last of them. */
  lemma {:induction false} NothingEntersUnderLease(actions: seq<Action>, i: nat, j: nat)
    requires i < j < |Exec(actions).events|
    requires Grants(Exec(actions).events[i]) && Exec(actions).events[j].Entered?
    requires forall k :: i < k < j ==> !Exec(actions).events[k].Released?
    ensures Exec(actions).events[j].at >= Exec(actions).events[i].at + LEASE_TIME
  {
    InvHolds(actions);
    LeaseStands(Exec(actions).events, i, j);
    assert MayCome(Exec(actions).events[..j], Exec(actions).events[j]);
  }

  /** Without a release the lease an event granted lasts at least as long. */
  lemma {:induction false} LeaseStands(events: seq<Event>, i: nat, j: nat)
    requires i < j <= |events| && Grants(events[i])
    requires forall k :: i < k < j ==> !events[k].Released?
    requires forall a, b :: 0 <= a < b < |events| ==> events[a].at <= events[b].at
    ensures Last(events[..j]).Some? && Last(events[..j]).value.until >= events[i].at + LEASE_TIME
    ensures exists k :: i <= k < j && Grants(events[k]) && Last(events[..j]) == Some(Lease(events[k].token, events[k].at + LEASE_TIME))
  {
    assert events[..j][..j - 1] == events[..j - 1];
    if i < j - 1 {
      LeaseStands(events, i, j - 1);
    }
    assert Grants(events[j - 1]) ==> Last(events[..j]) == Some(Lease(events[j - 1].token, events[j - 1].at + LEASE_TIME));
  }

  predicate Names(e: Event, token: string) { !e.Entered? && e.token == token }

  /** A renewal or release follows, within 90 seconds and with only entries between, a begin
      or renewal of the same token. */
  lemma {:induction false} SuccessesAreChained(actions: seq<Action>, j: nat) returns (i: nat)
    requires j < |Exec(actions).events|
    requires Exec(actions).events[j].Renewed? || Exec(actions).events[j].Released?
    ensures i < j && Grants(Exec(actions).events[i]) && Exec(actions).events[i].token == Exec(actions).events[j].token
    ensures Exec(actions).events[j].at < Exec(actions).events[i].at + LEASE_TIME
    ensures forall k :: i < k < j ==> Exec(actions).events[k].Entered?
  {
    InvHolds(actions);
    var events := Exec(actions).events;
    assert MayCome(events[..j], events[j]);
    i := LastGrant(events, j);
  }

  lemma {:induction false} LastGrant(events: seq<Event>, j: nat) returns (i: nat)
    requires j <= |events| && Last(events[..j]).Some?
    ensures i < j && Grants(events[i]) && Last(events[..j]) == Some(Lease(events[i].token, events[i].at + LEASE_TIME))
    ensures forall k :: i < k < j ==> events[k].Entered?
  {
    assert events[..j][..j - 1] == events[..j - 1];
    if events[j - 1].Entered? {
      i := LastGrant(events, j - 1);
    } else {
      i := j - 1;
    }
  }

  lemma {:induction false} UsedBefore(actions: seq<Action>, i: nat, j: nat, token: string)
    requires i < j <= |Exec(actions).events| && Names(Exec(actions).events[i], token)
    ensures Used(Exec(actions).events[..j], token)
    decreases i
  {
    var events := Exec(actions).events;
    if events[i].Begun? {
      assert events[..j][i] == events[i];
    } else {
      var k := SuccessesAreChained(actions, i);
      UsedBefore(actions, k, j, token);
    }
  }

  /** A released token never succeeds again, at anything. */
  lemma {:induction false} ReleasedIsGone(actions: seq<Action>, i: nat, j: nat)
    requires i < j < |Exec(actions).events| && Exec(actions).events[i].Released?
    ensures !Names(Exec(actions).events[j], Exec(actions).events[i].token)
    decreases j
  {
    InvHolds(actions);
    var events := Exec(actions).events;
    UsedBefore(actions, i, j, events[i].token);
    assert MayCome(events[..j], events[j]);
    if events[j].Renewed? || events[j].Released? {
      var k := SuccessesAreChained(actions, j);
      if i < k {
        ReleasedIsGone(actions, i, k);
      }
    }
  }

  /** Nor does a token that let 90 seconds pass since its last success. */
  lemma {:induction false} ExpiredIsGone(actions: seq<Action>, i: nat, j: nat, token: string)
    requires i < j < |Exec(actions).events| && Names(Exec(actions).events[i], token)
    requires forall k :: i < k < j ==> !Names(Exec(actions).events[k], token)
    requires Exec(actions).events[j].at >= Exec(actions).events[i].at + LEASE_TIME
    ensures !Names(Exec(actions).events[j], token)
  {
    InvHolds(actions);
    var events := Exec(actions).events;
    UsedBefore(actions, i, j, token);
    assert MayCome(events[..j], events[j]);
    if events[j].Renewed? || events[j].Released? {
      var k := SuccessesAreChained(actions, j);
    }
  }

  /** While one lease stands the running work only drains, unless existing work is continued. */
  lemma {:induction false} WorkDrains(actions: seq<Action>, more: seq<Action>)
    requires Exec(actions).lease.Some? && Run(Exec(actions), more).clock < Exec(actions).lease.value.until
    requires forall k :: 0 <= k < |more| ==> !more[k].operation.EnterExisting?
                                              && more[k].operation != Release(Exec(actions).lease.value.token)
    ensures var m, m' := Exec(actions), Run(Exec(actions), more);
      m'.permits <= m.permits && m'.lease.Some? && m'.lease.value.token == m.lease.value.token
      && m'.lease.value.until >= m.lease.value.until
  {
    var m := Exec(actions);
    InvHolds(actions);
    assert m.events[..|m.events|] == m.events;
    var i := LastGrant(m.events, |m.events|);
    assert m.lease.value.until <= m.clock + LEASE_TIME;
    if more != [] {
      WorkDrains(actions, more[..|more| - 1]);
    }
  }

  /** After each of these operations somebody holds the lease. */
  ghost predicate HeldThroughout(m: Machine, more: seq<Action>) {
    forall k :: 0 <= k <= |more| ==> HeldAfter(m, more[..k])
  }

  predicate HeldAfter(m: Machine, more: seq<Action>) {
    Holder(Run(m, more).events, Run(m, more).clock).Some?
  }

  /** Work that goes on is always let in, new work exactly while nobody holds the lease, and a
      permit that is dropped is gone; nothing else touches the permits, and permits touch
      nothing else. */
  lemma {:induction false} PermitsExactly(actions: seq<Action>, action: Action)
    requires Enabled(Exec(actions), action.operation)
    ensures var m, m' := Exec(actions), Apply(Exec(actions), action);
      && m'.clock == m.clock + action.wait
      && match action.operation
         case EnterExisting(permit) => m'.permits == m.permits + {permit} && m'.lease == m.lease && m'.events == m.events
         case Drop(permit) => m'.permits == m.permits - {permit} && m'.lease == m.lease && m'.events == m.events
         case Enter(permit) => m'.permits == if Holder(m.events, m.clock + action.wait).None? then m.permits + {permit} else m.permits
         case _ => m'.permits == m.permits
  {
    InvHolds(actions);
    if action.operation.Drop? {
      assert Exec(actions).permits != {};
    }
  }

  /** However often it is renewed, and whoever holds it: as long as the lease is held the
      running work only drains, unless existing work is continued. */
  lemma {:induction false} WorkDrainsWhileHeld(actions: seq<Action>, more: seq<Action>)
    requires HeldThroughout(Exec(actions), more)
    requires forall k :: 0 <= k < |more| ==> !more[k].operation.EnterExisting?
    ensures Run(Exec(actions), more).permits <= Exec(actions).permits && Inv(Run(Exec(actions), more))
  {
    if more == [] {
      InvHolds(actions);
    } else {
      var front, last := more[..|more| - 1], more[|more| - 1];
      var m := Run(Exec(actions), front);
      assert forall k :: 0 <= k <= |front| ==> front[..k] == more[..k];
      WorkDrainsWhileHeld(actions, front);
      ApplyKeeps(m, last);
      assert HeldAfter(Exec(actions), more[..|more|]) && more[..|more|] == more;
      NoEntryLeavesAHolder(m, last);
    }
  }

  lemma NoEntryLeavesAHolder(m: Machine, action: Action)
    requires Inv(m) && !action.operation.EnterExisting?
    requires Holder(Apply(m, action).events, Apply(m, action).clock).Some?
    ensures Apply(m, action).permits <= m.permits
  {
  }

  function Run(m: Machine, more: seq<Action>): (m': Machine)
    ensures m'.clock >= m.clock
  {
    if more == [] then m else Apply(Run(m, more[..|more| - 1]), more[|more| - 1])
  }

  // ---------------------------------------------------------------- the gate

  class Gate {
    var lease: Option<Lease>
    var active: nat
    ghost var machine: Machine
    ghost var log: seq<Action>

    ghost predicate Valid()
      reads this
    {
      machine == Exec(log) && machine.lease == lease && machine.active == active
    }

    constructor ()
      ensures Valid() && machine == Start && log == []
    {
      lease, active := None, 0;
      machine, log := Start, [];
    }

    ghost method Note(action: Action)
      requires machine == Exec(log)
      modifies this`machine, this`log
      ensures machine == Apply(old(machine), action) && machine == Exec(log)
      ensures log == old(log) + [action]
    {
      assert (log + [action])[..|log|] == log;
      machine, log := Apply(machine, action), log + [action];
    }

    method ExpireAt(now: nat)
      modifies this`lease
      ensures lease == Expire(old(lease), now)
    {
      if lease.Some? && lease.value.until <= now {
        lease := None;
      }
    }

    method EnterGate(permit: nat, now: nat) returns (entered: bool)
      requires Valid() && now >= machine.clock && permit !in machine.permits
      modifies this
      ensures Valid() && log == old(log) + [Action(Enter(permit), now - old(machine).clock)]
      ensures entered <==> Holder(old(machine).events, now).None?
      ensures permit in machine.permits <==> entered
    {
      hide Exec, Story;
      InvHolds(log);
      Note(Action(Enter(permit), now - machine.clock));
      ExpireAt(now);
      if lease.Some? {
        return false;
      }
      active := active + 1;
      return true;
    }

    method ContinueExisting(permit: nat, now: nat)
      requires Valid() && now >= machine.clock && permit !in machine.permits
      modifies this
      ensures Valid() && log == old(log) + [Action(EnterExisting(permit), now - old(machine).clock)]
      ensures permit in machine.permits
    {
      Note(Action(EnterExisting(permit), now - machine.clock));
      active := active + 1;
    }

    /** The end of a permit's life. */
    method DropPermit(permit: nat, now: nat)
      requires Valid() && now >= machine.clock && permit in machine.permits
      modifies this
      ensures Valid() && log == old(log) + [Action(Drop(permit), now - old(machine).clock)]
      ensures machine.permits == old(machine).permits - {permit} && active == old(active) - 1
    {
      InvHolds(log);
      assert machine.permits != {};
      Note(Action(Drop(permit), now - machine.clock));
      active := active - 1;
    }

    method BeginLease(token: string, now: nat) returns (begun: bool)
      requires Valid() && now >= machine.clock && !Used(machine.events, token)
      modifies this
      ensures Valid() && log == old(log) + [Action(Begin(token), now - old(machine).clock)]
      ensures begun <==> Holder(old(machine).events, now).None?
      ensures begun ==> Holder(machine.events, now) == Some(token)
    {
      hide Exec, Story;
      InvHolds(log);
      Note(Action(Begin(token), now - machine.clock));
      ExpireAt(now);
      if lease.Some? {
        return false;
      }
      lease := Some(Lease(token, now + LEASE_TIME));
      return true;
    }

    method RenewLease(token: string, now: nat) returns (renewed: bool)
      requires Valid() && now >= machine.clock
      modifies this
      ensures Valid() && log == old(log) + [Action(Renew(token), now - old(machine).clock)]
      ensures renewed <==> Holder(old(machine).events, now) == Some(token)
      ensures renewed ==> lease == Some(Lease(token, now + LEASE_TIME))
    {
      hide Exec, Story;
      InvHolds(log);
      Note(Action(Renew(token), now - machine.clock));
      ExpireAt(now);
      if lease.None? || lease.value.token != token {
        return false;
      }
      lease := Some(Lease(token, now + LEASE_TIME));
      return true;
    }

    method ReleaseLease(token: string, now: nat) returns (released: bool)
      requires Valid() && now >= machine.clock
      modifies this
      ensures Valid() && log == old(log) + [Action(Release(token), now - old(machine).clock)]
      ensures released <==> Holder(old(machine).events, now) == Some(token)
      ensures released ==> lease.None?
    {
      hide Exec, Story;
      InvHolds(log);
      Note(Action(Release(token), now - machine.clock));
      ExpireAt(now);
      if lease.None? || lease.value.token != token {
        return false;
      }
      lease := None;
      return true;
    }

    method ReadStatus(now: nat) returns (paused: bool, count: nat)
      requires Valid() && now >= machine.clock
      modifies this
      ensures Valid() && log == old(log) + [Action(Status, now - old(machine).clock)]
      ensures paused <==> Holder(machine.events, now).Some?
      ensures count == |machine.permits|
    {
      hide Exec, Story;
      InvHolds(log);
      Note(Action(Status, now - machine.clock));
      ExpireAt(now);
      return lease.Some?, active;
    }
  }
}
