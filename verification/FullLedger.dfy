/** What a full request ledger does to a request's copies.

    The run that fills it has as many requests as the ledger takes, under identifiers of their
    own, and one more: it is turned away, a close of the same identifier is not, and a further
    copy then conflicts. The other lemma says which answer a copy gets after it was turned away. */
module FullLedger {
  import opened RequestLedger
  import Text

  /** After a copy was turned away at a full ledger, its identifier is taken by a close or by
      nobody, for ever: a further copy conflicts in the one case and is turned away in the other. */
  lemma {:induction false} AfterHostFullExactly(actions: seq<Action>, p: nat, r: Request)
    requires Replied(r, HostFull) in Exec(actions).events && p !in Exec(actions).tasks
    ensures var m := Exec(actions);
      && (r.key in m.ledger <==> TakenByClose(m, r))
      && Apply(m, Arrive(p, r)).events == m.events + [Replied(r, if r.key in m.ledger then Conflict else HostFull)]
  {
    InvHolds(actions);
    assert Recorded(Exec(actions), Replied(r, HostFull));
  }

  /** Distinct requests of one run. */
  function Filler(run: RunKey, i: nat): Request
    requires i < MAX_HOST_REQUESTS
  {
    Request(Key(run, [(i / 1000) as char, (i % 1000) as char]), Other("fill"), true, true, "")
  }

  predicate ValidRun(run: RunKey) {
    run.protocol in {"mib-agent/0.1", "mib-memory-backend/0.1"} && 1 <= Text.Utf8Size(run.run) <= MAX_ID_BYTES
  }

  lemma FillerIsValid(run: RunKey, i: nat)
    requires ValidRun(run) && i < MAX_HOST_REQUESTS
    ensures Immediate(Filler(run, i)).None?
  {
    Text.Utf8SizeBounds(Filler(run, i).key.request);
  }

  lemma FillersDiffer(run: RunKey, i: nat, j: nat)
    requires i < j < MAX_HOST_REQUESTS
    ensures Filler(run, i).key != Filler(run, j).key
  {
    var a, b := Filler(run, i).key.request, Filler(run, j).key.request;
    assert a[0] == (i / 1000) as char && a[1] == (i % 1000) as char;
    assert b[0] == (j / 1000) as char && b[1] == (j % 1000) as char;
  }

  /** The ledger holds the first `n` fillers, and their tasks wait. */
  ghost predicate Filled(m: Machine, run: RunKey, n: nat) {
    && Reachable(m) && |m.ledger| == n <= MAX_HOST_REQUESTS
    && (forall k :: k in m.ledger ==> exists i: nat :: i < n && k == Filler(run, i).key)
    && (forall p :: p in m.tasks ==> p < n)
  }

  lemma BindsOneMore(m: Machine, p: nat, r: Request)
    requires r.key !in m.ledger
    ensures |Bind(m, p, r).ledger| == |m.ledger| + 1
  {
    var ledger := Bind(m, p, r).ledger;
    assert ledger.Keys == m.ledger.Keys + {r.key};
    assert |ledger| == |ledger.Keys| && |m.ledger| == |m.ledger.Keys|;
  }

  lemma Admits(start: Machine, p: nat, r: Request) returns (m: Machine)
    requires Reachable(start) && p !in start.tasks && Immediate(r).None?
    requires r.key !in start.ledger && (|start.ledger| < MAX_HOST_REQUESTS || r.operation.Close?)
    ensures Reachable(m) && m == Bind(start, p, r) && |m.ledger| == |start.ledger| + 1
  {
    hide Exec, Step, Unwind, EndRun, Immediate, Reachable, Bind;
    m := Reaches(start, Arrive(p, r));
    BindsOneMore(start, p, r);
  }

  lemma FillerIsNew(m: Machine, run: RunKey, n: nat)
    requires Filled(m, run, n) && n < MAX_HOST_REQUESTS
    ensures Filler(run, n).key !in m.ledger
  {
    if Filler(run, n).key in m.ledger {
      var i: nat :| i < n && Filler(run, n).key == Filler(run, i).key;
      FillersDiffer(run, i, n);
    }
  }

  lemma FillsOneMore(before: Machine, run: RunKey, n: nat) returns (m: Machine)
    requires ValidRun(run) && n < MAX_HOST_REQUESTS && Filled(before, run, n)
    ensures Filled(m, run, n + 1)
  {
    hide Exec, Apply, Reachable, ValidRun, Immediate;
    FillerIsNew(before, run, n);
    FillerIsValid(run, n);
    m := Admits(before, n, Filler(run, n));
  }

  lemma {:induction false} Fills(run: RunKey, n: nat) returns (m: Machine)
    requires ValidRun(run) && n <= MAX_HOST_REQUESTS
    ensures Filled(m, run, n)
  {
    if n == 0 {
      assert Exec([]) == Start;
      m := Start;
    } else {
      hide Filled, ValidRun;
      m := Fills(run, n - 1);
      m := FillsOneMore(m, run, n - 1);
    }
  }

  /** So the exception in `RepliesAgree` is real: every request but a close can be turned away
      at a full ledger, and conflict once a close took its identifier. */
  lemma CloseTakesTheIdentifier(r: Request)
    requires Immediate(r).None? && !r.operation.Close?
    ensures exists m :: Reachable(m) && Replied(r, HostFull) in m.events && Replied(r, Conflict) in m.events
  {
    hide Exec, Step, Unwind, EndRun;
    var run := r.key.run.(run := if r.key.run.run == "a" then "b" else "a");
    var n, close := MAX_HOST_REQUESTS, r.(operation := Close);
    Text.Utf8SizeBounds(run.run);
    var m := Fills(run, n);
    assert r.key !in m.ledger;
    m := Reaches(m, Arrive(n, r));
    var full := m.events;
    assert full[|full| - 1] == Replied(r, HostFull);
    m := Admits(m, n, close);
    m := Reaches(m, Arrive(n + 1, r));
    assert m.events == full + [Bound(close), Replied(r, Conflict)];
  }
}
