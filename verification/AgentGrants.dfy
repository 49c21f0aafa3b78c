/** The owner's grants to other local agents: tokens, their expiry and their revocation.

    A grant is created for some days, verifies until it expires or is revoked, and is forgotten
    when it has been retired for long; memory and the saved registry change together. */
module AgentGrants {
  import opened Wrappers

  const TOKEN_PREFIX := "anda_mem_"
  const DAY_MS := 24 * 3600 * 1000
  const DEFAULT_GRANT_DAYS := 90
  const MAX_GRANT_DAYS := 3650
  const MAX_ACTIVE_GRANTS := 32
  const RETIRED_RETENTION_MS := 30 * DAY_MS
  const LAST_USED_RESOLUTION_MS := 3600 * 1000
  const U64_MAX := 0xffff_ffff_ffff_ffff

  datatype Scope = Read | Write

  datatype Grant = Grant(
    id: string, client: string, scope: Scope, createdAt: nat, expiresAt: nat,
    revokedAt: Option<nat>, lastUsedAt: Option<nat>)

  /** `token` stands for its digest. */
  datatype Stored = Stored(grant: Grant, token: string)

  function SaturatingAdd(a: nat, b: nat): nat { if a + b > U64_MAX then U64_MAX else a + b }

  predicate IsActive(g: Grant, now: nat) { g.revokedAt.None? && now < g.expiresAt }

  predicate IsListed(g: Grant, now: nat) {
    IsActive(g, now) || SaturatingAdd(if g.revokedAt.Some? then g.revokedAt.value else g.expiresAt, RETIRED_RETENTION_MS) > now
  }

  function Listed(grants: seq<Stored>, now: nat): seq<Stored> {
    if grants == [] then []
    else (if IsListed(grants[0].grant, now) then [grants[0]] else []) + Listed(grants[1..], now)
  }

  function ActiveCount(grants: seq<Stored>, now: nat): nat {
    if grants == [] then 0
    else (if IsActive(grants[0].grant, now) then 1 else 0) + ActiveCount(grants[1..], now)
  }

  predicate Targets(g: Grant, target: string) { g.revokedAt.None? && (g.id == target || g.client == target) }

  function RevokeOne(s: Stored, target: string, now: nat): Stored {
    if Targets(s.grant, target) then s.(grant := s.grant.(revokedAt := Some(now))) else s
  }

  function Revoked(grants: seq<Stored>, target: string, now: nat): seq<Stored> {
    seq(|grants|, i requires 0 <= i < |grants| => RevokeOne(grants[i], target, now))
  }

  predicate AnyTargeted(grants: seq<Stored>, target: string) {
    exists i :: 0 <= i < |grants| && Targets(grants[i].grant, target)
  }

  /** The place of a token's grant, or the length. */
  function Position(grants: seq<Stored>, token: string): (i: nat)
    ensures i <= |grants| && (i < |grants| ==> grants[i].token == token)
    ensures forall k :: 0 <= k < i ==> grants[k].token != token
  {
    if grants == [] || grants[0].token == token then 0 else 1 + Position(grants[1..], token)
  }

  predicate Due(g: Grant, now: nat) {
    g.lastUsedAt.None? || now >= SaturatingAdd(g.lastUsedAt.value, LAST_USED_RESOLUTION_MS)
  }

  function Touch(g: Grant, now: nat): Grant { if Due(g, now) then g.(lastUsedAt := Some(now)) else g }

  /** The grant a token verifies as, in any list of grants. */
  function Verified(grants: seq<Stored>, token: string, now: nat): Option<Grant> {
    var i := Position(grants, token);
    if !(TOKEN_PREFIX <= token) || i == |grants| || !IsActive(grants[i].grant, now) then None else Some(grants[i].grant)
  }

  function Touched(grants: seq<Stored>, token: string, now: nat): seq<Stored> {
    if Verified(grants, token, now).None? then grants
    else
      var i := Position(grants, token);
      grants[i := grants[i].(grant := Touch(grants[i].grant, now))]
  }

  // ---------------------------------------------------------------- the machine

  /** `registry` is what memory holds, `saved` what the journal holds. `revoked` are the
      tokens whose revocation was reported done. The registry forgets grants that retired long
      ago. `issued` is the same history with nothing forgotten, and the registry must answer
      as it does. */
  datatype Machine = Machine(
    registry: seq<Stored>, saved: seq<Stored>, issued: seq<Stored>, revoked: set<string>, clock: nat)

  datatype Operation =
    | Create(grant: Grant, token: string)
    | Revoke(target: string)
    | Verify(token: string)
    | Reload

  /** An operation `wait` after the one before it, and whether the journal takes the write. */
  datatype Action = Action(operation: Operation, wait: nat, writes: bool)

  const Start := Machine([], [], [], {}, 0)

  function NewGrant(id: string, client: string, scope: Scope, days: nat, now: nat): Grant {
    Grant(id, client, scope, now, SaturatingAdd(now, days * DAY_MS), None, None)
  }

  function Created(grants: seq<Stored>, grant: Grant, token: string, now: nat): Option<seq<Stored>> {
    var kept := Listed(grants, now);
    if ActiveCount(kept, now) >= MAX_ACTIVE_GRANTS then None else Some(kept + [Stored(grant, token)])
  }

  predicate Fresh(m: Machine, token: string) {
    forall i :: 0 <= i < |m.issued| ==> m.issued[i].token != token
  }

  function Save(m: Machine, registry: seq<Stored>): Machine { m.(registry := registry, saved := registry) }

  function TokensOf(grants: seq<Stored>, target: string): set<string> {
    set i | 0 <= i < |grants| && Targets(grants[i].grant, target) :: grants[i].token
  }

  function Perform(m: Machine, o: Operation, writes: bool): Machine {
    match o
    case Create(grant, token) =>
      var next := Created(m.registry, grant, token, m.clock);
      if next.None? || !writes then m
      else Save(m, next.value).(issued := m.issued + [Stored(grant, token)])
    case Revoke(target) =>
      if !AnyTargeted(m.registry, target) || !writes then m
      else Save(m, Revoked(m.registry, target, m.clock)).(
        issued := Revoked(m.issued, target, m.clock), revoked := m.revoked + TokensOf(m.issued, target))
    case Verify(token) =>
      if !writes then m
      else Save(m, Touched(m.registry, token, m.clock)).(issued := Touched(m.issued, token, m.clock))
    case Reload => m.(registry := m.saved)
  }

  /** A created grant is one `create` makes now, under a token never issued before. */
  predicate Enabled(m: Machine, o: Operation, now: nat) {
    o.Create? ==>
      && Fresh(m, o.token) && TOKEN_PREFIX <= o.token
      && exists days :: 1 <= days <= MAX_GRANT_DAYS && o.grant == NewGrant(o.grant.id, o.grant.client, o.grant.scope, days, now)
  }

  function Apply(m: Machine, action: Action): Machine {
    var now := m.clock + action.wait;
    if Enabled(m, action.operation, now) then Perform(m.(clock := now), action.operation, action.writes) else m
  }

  function Exec(actions: seq<Action>): Machine {
    if actions == [] then Start
    else Apply(Exec(actions[..|actions| - 1]), actions[|actions| - 1])
  }

  // ---------------------------------------------------------------- forgetting is invisible

  predicate Distinct(grants: seq<Stored>) {
    forall i, j :: 0 <= i < j < |grants| ==> grants[i].token != grants[j].token
  }

  predicate Holds(grants: seq<Stored>, s: Stored) { exists i :: 0 <= i < |grants| && grants[i] == s }

  /** Everything kept was issued, and what was issued and not kept has retired for good. */
  ghost predicate Mirrors(kept: seq<Stored>, all: seq<Stored>, now: nat) {
    && Distinct(kept) && Distinct(all)
    && (forall i :: 0 <= i < |kept| ==> Holds(all, kept[i]))
    && (forall i :: 0 <= i < |all| ==> Holds(kept, all[i]) || !IsActive(all[i].grant, now))
  }

  lemma PositionIs(grants: seq<Stored>, i: nat)
    requires Distinct(grants) && i < |grants|
    ensures Position(grants, grants[i].token) == i
  {
  }

  /** At any later time a token verifies in the registry exactly as if nothing was forgotten. */
  lemma MirrorsVerify(kept: seq<Stored>, all: seq<Stored>, now: nat, token: string, at: nat)
    requires Mirrors(kept, all, now) && at >= now
    ensures Verified(kept, token, at) == Verified(all, token, at)
  {
    var i, j := Position(kept, token), Position(all, token);
    if i < |kept| {
      assert Holds(all, kept[i]);
      var k :| 0 <= k < |all| && all[k] == kept[i];
      PositionIs(all, k);
    }
  }

  lemma {:induction false} ListedHolds(grants: seq<Stored>, now: nat)
    ensures forall i :: 0 <= i < |Listed(grants, now)| ==> Holds(grants, Listed(grants, now)[i])
    ensures forall i :: 0 <= i < |grants| && IsListed(grants[i].grant, now) ==> Holds(Listed(grants, now), grants[i])
  {
    if grants != [] {
      hide IsListed;
      var rest, kept := Listed(grants[1..], now), Listed(grants, now);
      ListedHolds(grants[1..], now);
      var first := if IsListed(grants[0].grant, now) then 1 else 0;
      assert kept[first..] == rest;
      forall i | 0 <= i < |kept|
        ensures Holds(grants, kept[i])
      {
        if i < first {
          assert kept[i] == grants[0];
        } else {
          assert rest[i - first] == kept[i];
          var k :| 0 <= k < |grants[1..]| && grants[1..][k] == kept[i];
          assert grants[k + 1] == kept[i];
        }
      }
      forall i | 0 <= i < |grants| && IsListed(grants[i].grant, now)
        ensures Holds(kept, grants[i])
      {
        if i == 0 {
          assert kept[0] == grants[0];
        } else {
          assert grants[1..][i - 1] == grants[i];
          var k :| 0 <= k < |rest| && rest[k] == grants[i];
          assert kept[k + first] == grants[i];
        }
      }
    }
  }

  lemma {:induction false} ListedCounts(grants: seq<Stored>, now: nat)
    ensures ActiveCount(Listed(grants, now), now) == ActiveCount(grants, now)
    ensures Distinct(grants) ==> Distinct(Listed(grants, now))
  {
    if grants != [] {
      var rest, kept := Listed(grants[1..], now), Listed(grants, now);
      ListedCounts(grants[1..], now);
      ListedHolds(grants[1..], now);
      if IsListed(grants[0].grant, now) {
        assert kept[0] == grants[0] && kept[1..] == rest;
      } else {
        assert kept == rest;
      }
      if Distinct(grants) {
        forall i | 0 <= i < |rest|
          ensures rest[i].token != grants[0].token
        {
          assert Holds(grants[1..], rest[i]);
        }
      }
    }
  }

  // ---------------------------------------------------------------- what every operation keeps

  ghost predicate Few(m: Machine) { ActiveCount(m.registry, m.clock) <= MAX_ACTIVE_GRANTS }

  ghost predicate RevokedStay(m: Machine) {
    forall i :: 0 <= i < |m.issued| && m.issued[i].token in m.revoked ==> m.issued[i].grant.revokedAt.Some?
  }

  ghost predicate Inv(m: Machine) {
    && m.registry == m.saved && Mirrors(m.registry, m.issued, m.clock) && Few(m) && RevokedStay(m)
    && (forall token :: token in m.revoked ==> !Fresh(m, token))
  }

  lemma {:induction false} FewerLater(grants: seq<Stored>, now: nat, later: nat)
    requires now <= later
    ensures ActiveCount(grants, later) <= ActiveCount(grants, now)
  {
    if grants != [] {
      FewerLater(grants[1..], now, later);
    }
  }

  /** Pointwise the same grants, each no more active than before. */
  ghost predicate Calmer(grants: seq<Stored>, grants': seq<Stored>, now: nat) {
    && |grants'| == |grants|
    && (forall i :: 0 <= i < |grants| ==> grants'[i].token == grants[i].token)
    && (forall i :: 0 <= i < |grants| && IsActive(grants'[i].grant, now) ==> IsActive(grants[i].grant, now))
  }

  lemma {:induction false} CalmerCounts(grants: seq<Stored>, grants': seq<Stored>, now: nat)
    requires Calmer(grants, grants', now)
    ensures ActiveCount(grants', now) <= ActiveCount(grants, now)
  {
    if grants != [] {
      assert grants'[0].token == grants[0].token;
      CalmerCounts(grants[1..], grants'[1..], now);
    }
  }

  lemma {:induction false} CountAppended(grants: seq<Stored>, s: Stored, now: nat)
    ensures ActiveCount(grants + [s], now) <= ActiveCount(grants, now) + 1
  {
    if grants != [] {
      CountAppended(grants[1..], s, now);
      assert (grants + [s])[1..] == grants[1..] + [s];
    }
  }

  lemma CreateKeeps(m: Machine, grant: Grant, token: string)
    requires Inv(m) && Fresh(m, token)
    ensures Inv(Perform(m, Create(grant, token), true))
  {
    var next := Created(m.registry, grant, token, m.clock);
    if next.Some? {
      var kept, added := Listed(m.registry, m.clock), Stored(grant, token);
      ListedHolds(m.registry, m.clock);
      ListedCounts(m.registry, m.clock);
      CountAppended(kept, added, m.clock);
      var m' := Perform(m, Create(grant, token), true);
      assert m'.registry == kept + [added] && m'.issued == m.issued + [added];
      CreateMirrors(m.registry, kept, m.issued, added, m.clock);
      forall t | t in m'.revoked
        ensures !Fresh(m', t)
      {
        var i :| 0 <= i < |m.issued| && m.issued[i].token == t;
        assert m'.issued[i].token == t;
      }
    }
  }

  lemma CreateMirrors(registry: seq<Stored>, kept: seq<Stored>, all: seq<Stored>, added: Stored, now: nat)
    requires Mirrors(registry, all, now) && Distinct(kept)
    requires forall i :: 0 <= i < |kept| ==> Holds(registry, kept[i])
    requires forall i :: 0 <= i < |registry| && IsListed(registry[i].grant, now) ==> Holds(kept, registry[i])
    requires forall i :: 0 <= i < |all| ==> all[i].token != added.token
    ensures Mirrors(kept + [added], all + [added], now)
  {
    var kept', all' := kept + [added], all + [added];
    forall i | 0 <= i < |kept'|
      ensures Holds(all', kept'[i])
      ensures i < |kept| ==> kept'[i].token != added.token
    {
      if i < |kept| {
        assert Holds(registry, kept[i]);
        var k :| 0 <= k < |registry| && registry[k] == kept[i];
        assert Holds(all, registry[k]);
        var j :| 0 <= j < |all| && all[j] == registry[k];
        assert all'[j] == kept'[i];
      } else {
        assert all'[|all|] == kept'[i];
      }
    }
    forall i | 0 <= i < |all'|
      ensures Holds(kept', all'[i]) || !IsActive(all'[i].grant, now)
    {
      if i == |all| {
        assert kept'[|kept|] == all'[i];
      } else if IsActive(all[i].grant, now) {
        assert Holds(registry, all[i]);
        var k :| 0 <= k < |registry| && registry[k] == all[i];
        assert Holds(kept, registry[k]);
        var j :| 0 <= j < |kept| && kept[j] == registry[k];
        assert kept'[j] == all'[i];
      }
    }
  }

  lemma RevokeMirrors(kept: seq<Stored>, all: seq<Stored>, target: string, now: nat)
    requires Mirrors(kept, all, now)
    ensures Mirrors(Revoked(kept, target, now), Revoked(all, target, now), now)
  {
    var kept', all' := Revoked(kept, target, now), Revoked(all, target, now);
    forall i | 0 <= i < |kept'|
      ensures Holds(all', kept'[i])
    {
      assert Holds(all, kept[i]);
      var j :| 0 <= j < |all| && all[j] == kept[i];
      assert all'[j] == kept'[i];
    }
    forall i | 0 <= i < |all'|
      ensures Holds(kept', all'[i]) || !IsActive(all'[i].grant, now)
    {
      if Holds(kept, all[i]) {
        var j :| 0 <= j < |kept| && kept[j] == all[i];
        assert kept'[j] == all'[i];
      }
    }
  }

  lemma RevokeKeeps(m: Machine, target: string)
    requires Inv(m)
    ensures Inv(Perform(m, Revoke(target), true))
  {
    if AnyTargeted(m.registry, target) {
      RevokeMirrors(m.registry, m.issued, target, m.clock);
      CalmerCounts(m.registry, Revoked(m.registry, target, m.clock), m.clock);
      var m' := Perform(m, Revoke(target), true);
      forall i | 0 <= i < |m'.issued| && m'.issued[i].token in m'.revoked
        ensures m'.issued[i].grant.revokedAt.Some?
      {
        if m.issued[i].token !in m.revoked {
          var j :| 0 <= j < |m.issued| && Targets(m.issued[j].grant, target) && m.issued[j].token == m.issued[i].token;
          assert i == j;
        }
      }
      forall token | token in m'.revoked
        ensures !Fresh(m', token)
      {
        if token in m.revoked {
          var i :| 0 <= i < |m.issued| && m.issued[i].token == token;
          assert m'.issued[i].token == token;
        } else {
          var i :| 0 <= i < |m.issued| && Targets(m.issued[i].grant, target) && m.issued[i].token == token;
          assert m'.issued[i].token == token;
        }
      }
    }
  }

  lemma UpdateMirrors(kept: seq<Stored>, all: seq<Stored>, i: nat, j: nat, s: Stored, now: nat)
    requires Mirrors(kept, all, now) && i < |kept| && j < |all| && kept[i] == all[j] && s.token == kept[i].token
    ensures Mirrors(kept[i := s], all[j := s], now)
  {
    var kept', all' := kept[i := s], all[j := s];
    forall k | 0 <= k < |kept'|
      ensures Holds(all', kept'[k])
    {
      assert Holds(all, kept[k]);
      var l :| 0 <= l < |all| && all[l] == kept[k];
      if k == i {
        assert all'[j] == kept'[k];
      } else {
        assert kept[k].token != kept[i].token;
        assert all'[l] == kept'[k];
      }
    }
    forall k | 0 <= k < |all'|
      ensures Holds(kept', all'[k]) || !IsActive(all'[k].grant, now)
    {
      if k == j {
        assert kept'[i] == all'[k];
      } else if Holds(kept, all[k]) {
        var l :| 0 <= l < |kept| && kept[l] == all[k];
        assert all[k].token != all[j].token;
        assert kept'[l] == all'[k];
      }
    }
  }

  lemma TouchMirrors(kept: seq<Stored>, all: seq<Stored>, token: string, now: nat)
    requires Mirrors(kept, all, now)
    ensures Mirrors(Touched(kept, token, now), Touched(all, token, now), now)
  {
    MirrorsVerify(kept, all, now, token, now);
    hide Mirrors;
    if Verified(kept, token, now).Some? {
      var i, j := Position(kept, token), Position(all, token);
      UpdateMirrors(kept, all, i, j, kept[i].(grant := Touch(kept[i].grant, now)), now);
    }
  }

  lemma VerifyKeeps(m: Machine, token: string)
    requires Inv(m)
    ensures Inv(Perform(m, Verify(token), true))
  {
    TouchMirrors(m.registry, m.issued, token, m.clock);
    CalmerCounts(m.registry, Touched(m.registry, token, m.clock), m.clock);
    var m' := Perform(m, Verify(token), true);
    forall t | t in m'.revoked
      ensures !Fresh(m', t)
    {
      var i :| 0 <= i < |m.issued| && m.issued[i].token == t;
      assert m'.issued[i].token == t;
    }
  }

  lemma ApplyKeeps(m: Machine, action: Action)
    requires Inv(m)
    ensures Inv(Apply(m, action))
  {
    var now := m.clock + action.wait;
    var m1 := m.(clock := now);
    FewerLater(m.registry, m.clock, now);
    assert Inv(m1);
    if Enabled(m, action.operation, now) && action.writes {
      hide Inv;
      match action.operation
      case Create(grant, token) => CreateKeeps(m1, grant, token);
      case Revoke(target) => RevokeKeeps(m1, target);
      case Verify(token) => VerifyKeeps(m1, token);
      case Reload =>
    }
  }

  lemma {:induction false} InvHolds(actions: seq<Action>)
    ensures Inv(Exec(actions))
  {
    if actions != [] {
      InvHolds(actions[..|actions| - 1]);
      ApplyKeeps(Exec(actions[..|actions| - 1]), actions[|actions| - 1]);
    }
  }

  /** Memory is what is saved, so a reload changes nothing. */
  lemma {:induction false} MemoryIsSaved(actions: seq<Action>)
    ensures Exec(actions).registry == Exec(actions).saved
  {
    InvHolds(actions);
  }

  /** At no time from the last operation on are more than 32 grants active. */
  lemma {:induction false} AtMost32Active(actions: seq<Action>, at: nat)
    requires at >= Exec(actions).clock
    ensures ActiveCount(Exec(actions).registry, at) <= MAX_ACTIVE_GRANTS
  {
    InvHolds(actions);
    FewerLater(Exec(actions).registry, Exec(actions).clock, at);
  }

  /** Every token verifies, now and at every later time, as if no grant was ever forgotten. */
  lemma {:induction false} ForgettingIsInvisible(actions: seq<Action>, token: string, at: nat)
    requires at >= Exec(actions).clock
    ensures Verified(Exec(actions).registry, token, at) == Verified(Exec(actions).issued, token, at)
  {
    InvHolds(actions);
    MirrorsVerify(Exec(actions).registry, Exec(actions).issued, Exec(actions).clock, token, at);
  }

  /** A token whose revocation was reported never verifies again, after any operations and
      reloads and at any time. */
  lemma {:induction false} RevokedNeverVerifies(actions: seq<Action>, more: seq<Action>, token: string, at: nat)
    requires token in Exec(actions).revoked && at >= Exec(actions + more).clock
    ensures Verified(Exec(actions + more).registry, token, at).None?
  {
    RevokedGrows(actions, more);
    InvHolds(actions + more);
    ForgettingIsInvisible(actions + more, token, at);
  }

  lemma {:induction false} RevokedGrows(actions: seq<Action>, more: seq<Action>)
    ensures Exec(actions).revoked <= Exec(actions + more).revoked
  {
    if more == [] {
      assert actions + more == actions;
    } else {
      assert (actions + more)[..|actions + more| - 1] == actions + more[..|more| - 1];
      RevokedGrows(actions, more[..|more| - 1]);
    }
  }

  /** A revocation that is saved reaches every token of the grant or of the client it names,
      even one whose grant was forgotten. */
  lemma {:induction false} RevocationIsComplete(actions: seq<Action>, target: string, wait: nat, i: nat)
    requires AnyTargeted(Exec(actions).registry, target) && i < |Exec(actions).issued|
    requires Exec(actions).issued[i].grant.id == target || Exec(actions).issued[i].grant.client == target
    ensures var m := Exec(actions + [Action(Revoke(target), wait, true)]);
      m.issued[i].grant.revokedAt.Some? && Verified(m.registry, Exec(actions).issued[i].token, m.clock).None?
  {
    var all := actions + [Action(Revoke(target), wait, true)];
    assert all[..|all| - 1] == actions;
    InvHolds(all);
    var m := Exec(all);
    ForgettingIsInvisible(all, m.issued[i].token, m.clock);
    PositionIs(m.issued, i);
  }

  lemma LastVerifies(actions: seq<Action>, kept: seq<Stored>, last: Stored, at: nat)
    requires Exec(actions).registry == kept + [last] && TOKEN_PREFIX <= last.token
    ensures Verified(kept + [last], last.token, at) == if IsActive(last.grant, at) then Some(last.grant) else None
  {
    InvHolds(actions);
    PositionIs(kept + [last], |kept|);
  }

  // ---------------------------------------------------------------- the registry

  class Registry {
    var registry: seq<Stored>
    var journal: seq<Stored>
    ghost var machine: Machine
    ghost var log: seq<Action>

    ghost predicate Valid()
      reads this
    {
      machine == Exec(log) && machine.registry == registry && machine.saved == journal
    }

    constructor ()
      ensures Valid() && machine == Start && log == []
    {
      registry, journal := [], [];
      machine, log := Start, [];
    }

    ghost method Note(action: Action)
      requires machine == Exec(log)
      modifies this`machine, this`log
      ensures machine == Apply(old(machine), action) && machine == Exec(log)
      ensures log == old(log) + [action]
    {
      assert (log + [action])[..|log|] == log;
      machine, log := Apply(machine, action), log + [action];
    }

    /** The copy is kept once it is saved. */
    method Update(next: seq<Stored>, writes: bool) returns (saved: bool)
      modifies this`registry, this`journal
      ensures saved == writes
      ensures if writes then registry == journal == next else registry == old(registry) && journal == old(journal)
    {
      if !writes {
        return false;
      }
      journal := next;
      registry := next;
      return true;
    }

    /** `valid` says the client and name are acceptable; `id` and `token` are fresh. */
    method CreateGrant(valid: bool, id: string, client: string, scope: Scope, days: Option<nat>, token: string,
                       now: nat, writes: bool) returns (issued: Option<Grant>)
      requires Valid() && now >= machine.clock && Fresh(machine, token) && TOKEN_PREFIX <= token
      modifies this
      ensures Valid()
      ensures issued.Some? <==> valid && writes && (days.None? || 1 <= days.value <= MAX_GRANT_DAYS)
                                && ActiveCount(old(registry), now) < MAX_ACTIVE_GRANTS
      ensures issued.None? ==> registry == old(registry)
      ensures issued.Some? ==>
                machine.issued == old(machine).issued + [Stored(issued.value, token)]
                && Verified(registry, token, now) == if now < issued.value.expiresAt then issued else None
    {
      hide Exec, Listed, ActiveCount, Due, Touch;
      var length := if days.Some? then days.value else DEFAULT_GRANT_DAYS;
      if !valid || length < 1 || length > MAX_GRANT_DAYS {
        return None;
      }
      var grant := NewGrant(id, client, scope, length, now);
      ListedCounts(registry, now);
      assert Enabled(machine, Create(grant, token), now);
      Note(Action(Create(grant, token), now - machine.clock, writes));
      var kept := Listed(registry, now);
      if ActiveCount(kept, now) >= MAX_ACTIVE_GRANTS {
        return None;
      }
      var saved := Update(kept + [Stored(grant, token)], writes);
      if !saved {
        return None;
      }
      LastVerifies(log, kept, Stored(grant, token), now);
      return Some(grant);
    }

    /** A reported revocation leaves no grant that `target` matches, by its id or by its client. */
    method RevokeGrants(target: string, now: nat, writes: bool) returns (done: bool)
      requires Valid() && now >= machine.clock
      modifies this
      ensures Valid() && log == old(log) + [Action(Revoke(target), now - old(machine).clock, writes)]
      ensures done <==> writes && AnyTargeted(old(registry), target)
      ensures done ==> forall i :: 0 <= i < |registry| ==> !Targets(registry[i].grant, target)
      ensures !done ==> registry == old(registry)
    {
      hide Exec;
      Note(Action(Revoke(target), now - machine.clock, writes));
      var next, found := registry, false;
      for k := 0 to |next|
        invariant |next| == |registry|
        invariant forall i :: 0 <= i < k ==> next[i] == RevokeOne(registry[i], target, now)
        invariant forall i :: k <= i < |next| ==> next[i] == registry[i]
        invariant found <==> exists i :: 0 <= i < k && Targets(registry[i].grant, target)
      {
        if next[k].grant.revokedAt.None? && (next[k].grant.id == target || next[k].grant.client == target) {
          next := next[k := next[k].(grant := next[k].grant.(revokedAt := Some(now)))];
          found := true;
        }
      }
      assert next == Revoked(registry, target, now);
      if !found {
        return false;
      }
      done := Update(next, writes);
    }

    /** A token passes exactly when the log says it verifies. A save that fails costs only the
        note of when it was used. */
    method VerifyToken(token: string, now: nat, writes: bool) returns (grant: Option<Grant>)
      requires Valid() && now >= machine.clock
      modifies this
      ensures Valid() && log == old(log) + [Action(Verify(token), now - old(machine).clock, writes)]
      ensures var was := Verified(old(machine).issued, token, now);
        grant == if was.Some? && writes then Some(Touch(was.value, now)) else was
    {
      hide Exec, Fresh;
      ForgettingIsInvisible(log, token, now);
      MemoryIsSaved(log);
      Note(Action(Verify(token), now - machine.clock, writes));
      if !(TOKEN_PREFIX <= token) {
        return None;
      }
      var index := Position(registry, token);
      if index == |registry| || !IsActive(registry[index].grant, now) {
        return None;
      }
      if registry[index].grant.lastUsedAt.None?
         || now >= SaturatingAdd(registry[index].grant.lastUsedAt.value, LAST_USED_RESOLUTION_MS) {
        var next := registry[index := registry[index].(grant := registry[index].grant.(lastUsedAt := Some(now)))];
        var _ := Update(next, writes);
      }
      return Some(registry[index].grant);
    }

    method Load(now: nat)
      requires Valid() && now >= machine.clock
      modifies this
      ensures Valid() && registry == old(registry)
    {
      InvHolds(log);
      hide Exec;
      Note(Action(Reload, now - machine.clock, true));
      registry := journal;
    }
  }
}
