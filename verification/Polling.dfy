/** Change polling over one journal. */
module Polling {
  type Key = string

  const WATCHED := ["formation/", "recall/", "changes/"]
  const ACTIVITY := ["formation/", "recall/"]
  const CHANGES := ["changes/"]

  predicate Under(prefixes: seq<string>, key: Key) {
    exists i :: 0 <= i < |prefixes| && prefixes[i] <= key
  }

  /** The marked keys one poller takes; the rest stay for the other. */
  function Taken(changed: set<Key>, prefixes: seq<string>): set<Key> {
    set key | key in changed && Under(prefixes, key)
  }

  // ---------------------------------------------------------------- the machine

  datatype Phase =
    | Resting
    | Listing(index: nat, todo: set<Key>)
    | Working(queue: set<Key>)
    | Handling(queue: set<Key>, key: Key, version: nat)

  /** `settled` remembers the version whose handling ended without a refresh. */
  datatype Poller = Poller(
    prefixes: seq<string>, scanned: bool, pending: set<Key>, phase: Phase, settled: map<Key, nat>)

  /** `versions` counts the puts of each key; `unmarked` holds the puts not marked yet. */
  datatype World = World(versions: map<Key, nat>, unmarked: multiset<Key>, changed: set<Key>, pollers: seq<Poller>)

  /** Writers put a row and then mark its key; two pollers drain the marks, scan once at
      startup, and keep what still needs work. Every action is one atomic step of one task, so
      any interleaving is a sequence of them. */
  datatype Action =
    | Put(key: Key)
    | Mark(key: Key)
    | Drain(p: nat)
    | Visit(p: nat, key: Key)
    | ListNext(p: nat)
    | AbortScan(p: nat)
    | Read(p: nat, key: Key)
    | Finish(p: nat, refresh: bool)
    | Fail(p: nat)
    | Rest(p: nat)
    | Restart

  function NewPoller(prefixes: seq<string>): Poller { Poller(prefixes, false, {}, Resting, map[]) }

  function Boot(versions: map<Key, nat>): World {
    World(versions, multiset{}, {}, [NewPoller(ACTIVITY), NewPoller(CHANGES)])
  }

  function Version(w: World, key: Key): nat { if key in w.versions then w.versions[key] else 0 }
  function SettledAt(p: Poller, key: Key): nat { if key in p.settled then p.settled[key] else 0 }

  function Stored(w: World, prefix: string): set<Key> { set key | key in w.versions && prefix <= key }

  function With(w: World, p: nat, poller: Poller): World
    requires p < |w.pollers|
  {
    w.(pollers := w.pollers[p := poller])
  }

  function Step(w: World, p: nat, q: Poller, action: Action): World
    requires p < |w.pollers| && w.pollers[p] == q
  {
    match action
    case Drain(_) =>
      if !q.phase.Resting? then w else
      var taken := Taken(w.changed, q.prefixes);
      var q' := q.(pending := q.pending + taken);
      var w' := w.(changed := w.changed - taken);
      if q.scanned then With(w', p, q'.(phase := Working(q'.pending)))
      else if |q.prefixes| == 0 then w
      else With(w', p, q'.(phase := Listing(0, Stored(w, q.prefixes[0]))))
    case Visit(_, key) =>
      // A listing returns every key stored when it began, and may return later ones.
      if !q.phase.Listing? || key !in w.versions || !Under(q.prefixes, key) then w else
      With(w, p, q.(pending := q.pending + {key}, phase := Listing(q.phase.index, q.phase.todo - {key})))
    case ListNext(_) =>
      if !q.phase.Listing? || q.phase.todo != {} then w
      else if q.phase.index + 1 < |q.prefixes| then
        With(w, p, q.(phase := Listing(q.phase.index + 1, Stored(w, q.prefixes[q.phase.index + 1]))))
      else With(w, p, q.(scanned := true, phase := Working(q.pending)))
    case AbortScan(_) => if !q.phase.Listing? then w else With(w, p, q.(phase := Resting))
    case Read(_, key) =>
      if !q.phase.Working? || key !in q.phase.queue then w else
      With(w, p, q.(phase := Handling(q.phase.queue - {key}, key, Version(w, key))))
    case Finish(_, refresh) =>
      if !q.phase.Handling? then w
      else if refresh then With(w, p, q.(phase := Working(q.phase.queue)))
      else With(w, p, q.(phase := Working(q.phase.queue), pending := q.pending - {q.phase.key},
                         settled := q.settled[q.phase.key := q.phase.version]))
    case Fail(_) => if !q.phase.Handling? then w else With(w, p, q.(phase := Working(q.phase.queue)))
    case Rest(_) => if !q.phase.Working? then w else With(w, p, q.(phase := Resting))
    case _ => w
  }

  function Apply(w: World, action: Action): World {
    match action
    case Put(key) =>
      w.(versions := w.versions[key := Version(w, key) + 1], unmarked := w.unmarked + multiset{key})
    case Mark(key) =>
      if key !in w.unmarked then w else
      w.(unmarked := w.unmarked - multiset{key},
         changed := if Under(WATCHED, key) then w.changed + {key} else w.changed)
    case Restart => Boot(w.versions)
    case _ => if action.p < |w.pollers| then Step(w, action.p, w.pollers[action.p], action) else w
  }

  function Exec(start: map<Key, nat>, actions: seq<Action>): World {
    if actions == [] then Boot(start)
    else Apply(Exec(start, actions[..|actions| - 1]), actions[|actions| - 1])
  }

  // ---------------------------------------------------------------- nothing is lost

  /** A version newer than the settled one is still known to someone. */
  predicate Known(w: World, q: Poller, key: Key) {
    Version(w, key) > SettledAt(q, key) ==> key in w.unmarked || key in w.changed || key in q.pending
  }

  /** Keys the poller answers for: all of its own once scanned, and what its listing passed. */
  predicate Covered(q: Poller, key: Key) {
    && Under(q.prefixes, key)
    && (q.scanned
        || (q.phase.Listing? && q.phase.index < |q.prefixes|
            && (Under(q.prefixes[..q.phase.index], key)
                || (q.prefixes[q.phase.index] <= key && key !in q.phase.todo))))
  }

  ghost predicate PollerFits(w: World, q: Poller) {
    && (forall key :: Covered(q, key) ==> Known(w, q, key))
    && (q.phase.Working? || q.phase.Handling? ==> q.scanned)
    && (q.phase.Listing? ==> !q.scanned && q.phase.index < |q.prefixes|)
    && (q.phase.Handling? && Version(w, q.phase.key) > q.phase.version && Under(q.prefixes, q.phase.key) ==>
          q.phase.key in w.unmarked || q.phase.key in w.changed)
  }

  ghost predicate Inv(w: World) {
    && |w.pollers| == 2
    && w.pollers[0].prefixes == ACTIVITY && w.pollers[1].prefixes == CHANGES
    && PollerFits(w, w.pollers[0]) && PollerFits(w, w.pollers[1])
  }

  lemma DisjointPrefixes(key: Key)
    ensures !(Under(ACTIVITY, key) && Under(CHANGES, key))
    ensures Under(ACTIVITY, key) || Under(CHANGES, key) <==> Under(WATCHED, key)
  {
    if Under(ACTIVITY, key) {
      var i :| 0 <= i < |ACTIVITY| && ACTIVITY[i] <= key;
      assert key[0] == ACTIVITY[i][0] && WATCHED[i] <= key;
    }
    if Under(CHANGES, key) {
      assert key[0] == CHANGES[0][0] && WATCHED[2] <= key;
    }
    if Under(WATCHED, key) {
      var i :| 0 <= i < |WATCHED| && WATCHED[i] <= key;
      assert if i < 2 then ACTIVITY[i] <= key else CHANGES[0] <= key;
    }
  }

  /** One poller's step keeps its own bookkeeping. */
  lemma StepFits(w: World, p: nat, action: Action)
    requires p < |w.pollers| && PollerFits(w, w.pollers[p]) && |w.pollers[p].prefixes| > 0
    ensures var w' := Step(w, p, w.pollers[p], action);
      |w'.pollers| == |w.pollers| && w'.pollers[p].prefixes == w.pollers[p].prefixes && PollerFits(w', w'.pollers[p])
  {
    var q := w.pollers[p];
    var w' := Step(w, p, q, action);
    var q' := w'.pollers[p];
    forall key | Covered(q', key)
      ensures Known(w', q', key)
    {
      if action.ListNext? && q.phase.Listing? && q.phase.todo == {} {
        ListedAll(q.prefixes, q.phase.index, key);
      }
      if Covered(q, key) {
        assert Known(w, q, key);
      }
    }
  }

  lemma ListedAll(prefixes: seq<string>, index: nat, key: Key)
    requires index < |prefixes|
    ensures Under(prefixes[..index + 1], key) <==> Under(prefixes[..index], key) || prefixes[index] <= key
    ensures index + 1 == |prefixes| ==> prefixes[..index + 1] == prefixes
  {
    if Under(prefixes[..index], key) {
      var i :| 0 <= i < index && prefixes[..index][i] <= key;
      assert prefixes[..index + 1][i] <= key;
    }
    if prefixes[index] <= key {
      assert prefixes[..index + 1][index] <= key;
    }
    if Under(prefixes[..index + 1], key) {
      var i :| 0 <= i < index + 1 && prefixes[..index + 1][i] <= key;
      assert i < index ==> prefixes[..index][i] <= key;
    }
  }

  /** And leaves the other's alone, because no key is under the prefixes of both. */
  lemma StepFitsOther(w: World, p: nat, o: nat, action: Action)
    requires p < |w.pollers| && o < |w.pollers| && p != o && PollerFits(w, w.pollers[o])
    requires forall key :: !(Under(w.pollers[p].prefixes, key) && Under(w.pollers[o].prefixes, key))
    ensures var w' := Step(w, p, w.pollers[p], action);
      |w'.pollers| == |w.pollers| && w'.pollers[o] == w.pollers[o] && PollerFits(w', w.pollers[o])
  {
    var q := w.pollers[o];
    var w' := Step(w, p, w.pollers[p], action);
    forall key | Under(q.prefixes, key)
      ensures key in w'.changed <==> key in w.changed
    {
    }
  }

  lemma WriteFits(w: World, q: Poller, action: Action)
    requires action.Put? || action.Mark?
    requires PollerFits(w, q) && (forall key :: Under(q.prefixes, key) ==> Under(WATCHED, key))
    ensures PollerFits(Apply(w, action), q)
  {
    var w' := Apply(w, action);
    forall key | Covered(q, key)
      ensures Known(w', q, key)
    {
      assert Known(w, q, key);
    }
  }

  lemma ApplyKeeps(w: World, action: Action)
    requires Inv(w)
    ensures Inv(Apply(w, action))
  {
    forall key {
      DisjointPrefixes(key);
    }
    if action.Put? || action.Mark? {
      WriteFits(w, w.pollers[0], action);
      WriteFits(w, w.pollers[1], action);
    } else if !action.Restart? && action.p < 2 {
      StepFits(w, action.p, action);
      StepFitsOther(w, action.p, 1 - action.p, action);
    }
  }

  lemma {:induction false} InvHolds(start: map<Key, nat>, actions: seq<Action>)
    ensures Inv(Exec(start, actions))
  {
    if actions != [] {
      InvHolds(start, actions[..|actions| - 1]);
      ApplyKeeps(Exec(start, actions[..|actions| - 1]), actions[|actions| - 1]);
    }
  }

  lemma ScannedKnows(w: World, q: Poller, key: Key)
    requires PollerFits(w, q) && q.scanned && Under(q.prefixes, key)
    ensures Known(w, q, key)
  {
    assert Covered(q, key);
  }

  /** In every interleaving, and across restarts: a scanned poller's key whose last completed
      write came after the read it settled on is marked or pending. */
  lemma {:induction false} NoChangeIsLost(start: map<Key, nat>, actions: seq<Action>, p: nat, key: Key)
    requires p < |Exec(start, actions).pollers|
    requires var w := Exec(start, actions);
      && w.pollers[p].scanned && Under(w.pollers[p].prefixes, key)
      && key !in w.unmarked && Version(w, key) > SettledAt(w.pollers[p], key)
    ensures key in Exec(start, actions).changed || key in Exec(start, actions).pollers[p].pending
  {
    InvHolds(start, actions);
    ScannedKnows(Exec(start, actions), Exec(start, actions).pollers[p], key);
  }

  // ---------------------------------------------------------------- the host's code

  class Journal {
    var rows: map<Key, string>
    var changed: set<Key>

    constructor (stored: map<Key, string>)
      ensures rows == stored && changed == {}
    {
      rows, changed := stored, {};
    }

    method MarkChanged(key: Key)
      modifies this`changed
      ensures changed == if Under(WATCHED, key) then old(changed) + {key} else old(changed)
    {
      if exists i :: 0 <= i < |WATCHED| && WATCHED[i] <= key {
        changed := changed + {key};
      }
    }

    method Write(key: Key, value: string)
      modifies this
      ensures rows == old(rows)[key := value]
      ensures changed == if Under(WATCHED, key) then old(changed) + {key} else old(changed)
    {
      rows := rows[key := value];
      MarkChanged(key);
    }

    method Create(key: Key, value: string) returns (created: bool)
      modifies this
      ensures created <==> key !in old(rows)
      ensures rows == if created then old(rows)[key := value] else old(rows)
      ensures changed == if created && Under(WATCHED, key) then old(changed) + {key} else old(changed)
    {
      if key in rows {
        return false;
      }
      Write(key, value);
      return true;
    }
  }

  class JournalPoll {
    var scanned: bool
    var pending: set<Key>

    constructor ()
      ensures !scanned && pending == {}
    {
      scanned, pending := false, {};
    }

    /** Takes the marked keys under `prefixes`; the rest stay marked. */
    method TakeChanged(journal: Journal, prefixes: seq<string>)
      modifies this`pending, journal`changed
      ensures journal.changed == old(journal.changed) - Taken(old(journal.changed), prefixes)
      ensures pending == old(pending) + Taken(old(journal.changed), prefixes)
    {
      var rest, kept, taken := journal.changed, {}, {};
      while rest != {}
        invariant kept + taken + rest == old(journal.changed)
        invariant forall key :: key in taken ==> Under(prefixes, key)
        invariant forall key :: key in kept ==> !Under(prefixes, key)
      {
        var key :| key in rest;
        if exists i :: 0 <= i < |prefixes| && prefixes[i] <= key {
          taken := taken + {key};
        } else {
          kept := kept + {key};
        }
        rest := rest - {key};
      }
      pending, journal.changed := pending + taken, kept;
    }

    method Scan(journal: Journal, prefixes: seq<string>)
      modifies this
      ensures scanned && pending == old(pending) + Taken(journal.rows.Keys, prefixes)
    {
      for i := 0 to |prefixes|
        invariant pending == old(pending) + Taken(journal.rows.Keys, prefixes[..i])
      {
        forall key {
          ListedAll(prefixes, i, key);
        }
        pending := pending + set key | key in journal.rows.Keys && prefixes[i] <= key;
      }
      assert prefixes[..|prefixes|] == prefixes;
      scanned := true;
    }

    method Keys(journal: Journal, prefixes: seq<string>) returns (keys: set<Key>)
      modifies this, journal`changed
      ensures keys == pending && scanned
      ensures journal.changed == old(journal.changed) - Taken(old(journal.changed), prefixes)
      ensures pending == old(pending) + Taken(old(journal.changed), prefixes)
                         + (if old(scanned) then {} else Taken(journal.rows.Keys, prefixes))
    {
      TakeChanged(journal, prefixes);
      if !scanned {
        Scan(journal, prefixes);
      }
      keys := pending;
    }

    method Finish(key: Key, refresh: bool)
      modifies this`pending
      ensures pending == if refresh then old(pending) else old(pending) - {key}
    {
      if !refresh {
        pending := pending - {key};
      }
    }
  }
}
