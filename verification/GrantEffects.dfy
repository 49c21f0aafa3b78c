/** What one operation on the grants does, told by the grants there are.

    Which token names a grant is told by what was ever issued, so what the registry has forgotten
    makes no difference. The other lemmas say which grants a creation forgets, which a revocation
    reaches, and when a use is noted, with the times written out. */
module GrantEffects {
  import opened Wrappers
  import opened AgentGrants

  predicate InForce(g: Grant, at: nat) { g.revokedAt.None? && at < g.expiresAt }

  /** A token names a grant exactly when that was issued under it, is not revoked and has not
      expired, whatever the registry has forgotten. */
  lemma {:induction false} VerifiesExactly(actions: seq<Action>, token: string, at: nat, g: Grant)
    requires at >= Exec(actions).clock
    ensures Verified(Exec(actions).registry, token, at) == Some(g) <==>
              TOKEN_PREFIX <= token && Stored(g, token) in Exec(actions).issued && InForce(g, at)
  {
    InvHolds(actions);
    var m := Exec(actions);
    MirrorsVerify(m.registry, m.issued, m.clock, token, at);
    hide Inv, Mirrors;
    assert Distinct(m.issued) by {
      IssuedApart(actions);
    }
    if Stored(g, token) in m.issued {
      var i :| 0 <= i < |m.issued| && m.issued[i] == Stored(g, token);
      PositionIs(m.issued, i);
    }
  }

  lemma {:induction false} IssuedApart(actions: seq<Action>)
    ensures Distinct(Exec(actions).issued) && Distinct(Exec(actions).registry)
  {
    InvHolds(actions);
  }

  /** A grant is forgotten once it has been retired, revoked or expired, for thirty days. */
  predicate Remembered(g: Grant, now: nat) {
    InForce(g, now) || Later(if g.revokedAt.Some? then g.revokedAt.value else g.expiresAt, 2_592_000_000) > now
  }

  /** A time later by some milliseconds, or the last there is. */
  function Later(at: nat, more: nat): nat { if at + more <= 18446744073709551615 then at + more else 18446744073709551615 }

  lemma {:induction false} ListsExactly(grants: seq<Stored>, now: nat)
    ensures forall s :: s in Listed(grants, now) <==> s in grants && Remembered(s.grant, now)
  {
    if grants != [] {
      ListsExactly(grants[1..], now);
      assert grants == [grants[0]] + grants[1..];
    }
  }

  /** The grants in force. */
  function Active(grants: seq<Stored>, now: nat): set<Stored> { set s | s in grants && InForce(s.grant, now) }

  lemma {:induction false} CountsExactly(grants: seq<Stored>, now: nat)
    requires Distinct(grants)
    ensures ActiveCount(grants, now) == |Active(grants, now)|
  {
    if grants != [] {
      var first, rest := grants[0], grants[1..];
      DistinctTail(grants);
      CountsExactly(rest, now);
      hide Distinct, IsActive;
      assert grants == [first] + rest;
      assert Active(grants, now) == Active(rest, now) + if InForce(first.grant, now) then {first} else {};
      assert first !in Active(rest, now);
      assert IsActive(first.grant, now) == InForce(first.grant, now) by {
        SameForce(first.grant, now);
      }
    } else {
      assert Active(grants, now) == {};
    }
  }

  lemma DistinctTail(grants: seq<Stored>)
    requires Distinct(grants) && grants != []
    ensures Distinct(grants[1..]) && grants[0] !in grants[1..]
  {
    var rest := grants[1..];
    assert forall i :: 0 <= i < |rest| ==> rest[i] == grants[i + 1];
  }

  lemma SameForce(g: Grant, now: nat)
    ensures IsActive(g, now) == InForce(g, now)
  {
  }

  /** A grant made for some days expires that much later, or at the last time there is. */
  lemma NewGrantExactly(id: string, client: string, scope: Scope, days: nat, now: nat)
    ensures NewGrant(id, client, scope, days, now) == Grant(id, client, scope, now, Later(now, days * 86_400_000), None, None)
  {
  }

  /** A creation that is saved adds its grant, with fewer than 32 in force, and drops exactly
      those that are forgotten; any other changes nothing. */
  lemma {:induction false} CreateExactly(actions: seq<Action>, grant: Grant, token: string, wait: nat, writes: bool)
    requires Enabled(Exec(actions), Create(grant, token), Exec(actions).clock + wait)
    ensures var m := Exec(actions);
      var m', now := Apply(m, Action(Create(grant, token), wait, writes)), m.clock + wait;
      && m'.clock == now && m'.revoked == m.revoked
      && if writes && |Active(m.registry, now)| < 32 then
           && m'.issued == m.issued + [Stored(grant, token)] && m'.saved == m'.registry && m'.registry != []
           && m'.registry[|m'.registry| - 1] == Stored(grant, token)
           && (forall s :: s in m'.registry[..|m'.registry| - 1] <==> s in m.registry && Remembered(s.grant, now))
         else m' == m.(clock := now)
  {
    var m := Exec(actions);
    var now := m.clock + wait;
    IssuedApart(actions);
    CountsExactly(m.registry, now);
    CreatesFrom(m.(clock := now), grant, token, writes);
    hide Perform, Enabled, Active, ActiveCount, Listed;
  }

  lemma CreatesFrom(m: Machine, grant: Grant, token: string, writes: bool)
    ensures var m' := Perform(m, Create(grant, token), writes);
      if writes && ActiveCount(m.registry, m.clock) < 32 then
        && m' == m.(registry := m'.registry, saved := m'.registry, issued := m.issued + [Stored(grant, token)])
        && m'.registry != [] && m'.registry[|m'.registry| - 1] == Stored(grant, token)
        && (forall s :: s in m'.registry[..|m'.registry| - 1] <==> s in m.registry && Remembered(s.grant, m.clock))
      else m' == m
  {
    ListsExactly(m.registry, m.clock);
    ListedCounts(m.registry, m.clock);
    hide Listed, ActiveCount, Remembered;
    var kept := Listed(m.registry, m.clock);
    assert (kept + [Stored(grant, token)])[..|kept|] == kept;
  }

  /** The grants revoked by a target are those not revoked yet that it names, by their id or
      their client. */
  predicate NamedBy(g: Grant, target: string) { g.revokedAt.None? && (g.id == target || g.client == target) }

  /** Each grant that is named is revoked now, and the others are as they were. */
  predicate RevokedBy(was: seq<Stored>, next: seq<Stored>, target: string, at: nat) {
    && |next| == |was|
    && forall i :: 0 <= i < |was| ==>
         next[i] == if NamedBy(was[i].grant, target) then Stored(was[i].grant.(revokedAt := Some(at)), was[i].token) else was[i]
  }

  lemma NamesExactly(grants: seq<Stored>, target: string)
    ensures AnyTargeted(grants, target) <==> exists s :: s in grants && NamedBy(s.grant, target)
    ensures forall token :: token in TokensOf(grants, target) <==>
              exists i :: 0 <= i < |grants| && grants[i].token == token && NamedBy(grants[i].grant, target)
  {
    if s :| s in grants && NamedBy(s.grant, target) {
      var i :| 0 <= i < |grants| && grants[i] == s;
      assert Targets(grants[i].grant, target);
    }
  }

  lemma RevokesEach(grants: seq<Stored>, target: string, at: nat)
    ensures RevokedBy(grants, Revoked(grants, target, at), target, at)
  {
  }

  lemma RevokeExactly(m: Machine, target: string, wait: nat, writes: bool)
    ensures var m', now := Apply(m, Action(Revoke(target), wait, writes)), m.clock + wait;
      && m'.clock == now
      && if writes && exists s :: s in m.registry && NamedBy(s.grant, target) then
           && RevokedBy(m.registry, m'.registry, target, now) && m'.saved == m'.registry
           && RevokedBy(m.issued, m'.issued, target, now)
           && forall token :: token in m'.revoked <==>
                token in m.revoked || exists i :: 0 <= i < |m.issued| && m.issued[i].token == token && NamedBy(m.issued[i].grant, target)
         else m' == m.(clock := now)
  {
    var now := m.clock + wait;
    NamesExactly(m.registry, target);
    NamesExactly(m.issued, target);
    RevokesEach(m.registry, target, now);
    RevokesEach(m.issued, target, now);
    hide AnyTargeted, Revoked, RevokedBy, TokensOf;
  }

  /** Its last use is noted if none was, or an hour has passed since the last that was noted. */
  predicate UsedAt(was: Grant, next: Grant, at: nat) {
    next == if was.lastUsedAt.None? || at >= Later(was.lastUsedAt.value, 3_600_000) then was.(lastUsedAt := Some(at)) else was
  }

  /** A verification notes the use of the one grant it finds, if that is saved. */
  lemma VerifyExactly(grants: seq<Stored>, token: string, at: nat)
    ensures var next := Touched(grants, token, at);
      if Verified(grants, token, at).None? then next == grants
      else exists i :: 0 <= i < |grants| && grants[i] == Stored(Verified(grants, token, at).value, token)
             && |next| == |grants| && next[i].token == token && UsedAt(grants[i].grant, next[i].grant, at)
             && forall k :: 0 <= k < |grants| && k != i ==> next[k] == grants[k]
  {
    if Verified(grants, token, at).Some? {
      var i := Position(grants, token);
      assert grants[i] == Stored(Verified(grants, token, at).value, token);
    }
  }

  lemma VerifySaves(m: Machine, token: string, wait: nat, writes: bool)
    ensures var m', now := Apply(m, Action(Verify(token), wait, writes)), m.clock + wait;
      && m'.clock == now && m'.revoked == m.revoked
      && if writes then m'.registry == m'.saved == Touched(m.registry, token, now) && m'.issued == Touched(m.issued, token, now)
         else m' == m.(clock := now)
    ensures var m', now := Apply(m, Action(Reload, wait, writes)), m.clock + wait;
      m' == m.(clock := now, registry := m.saved)
  {
    hide Touched;
  }

  /** A run goes on operation by operation. */
  lemma RunsGoOn(actions: seq<Action>, action: Action)
    ensures Exec([]) == Start && Exec(actions + [action]) == Apply(Exec(actions), action)
  {
    assert (actions + [action])[..|actions|] == actions;
  }
}
