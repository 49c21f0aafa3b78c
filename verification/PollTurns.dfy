/** What each step of a poller does, and what a poll settles.

    The steps are told by what they find: the marks, the keys that are stored, and what the poller
    holds. They are those of one poller; what other writers and the other poller do in between
    changes what the next step finds, and `Polling` says that nothing is lost by it. */
module PollTurns {
  import opened Polling

  /** Nothing but poller `p` is touched. */
  predicate OnlyPoller(w: World, w': World, p: nat) {
    && p < |w.pollers| == |w'.pollers| && w'.versions == w.versions && w'.unmarked == w.unmarked
    && w'.pollers == w.pollers[p := w'.pollers[p]]
  }

  predicate Same(q: Poller, q': Poller) { q'.prefixes == q.prefixes && q'.scanned == q.scanned && q'.settled == q.settled }

  /** A resting poller takes the marks under its prefixes and no others; then it works on what
      is pending or, the first time, lists what is stored under its first prefix. */
  lemma DrainExactly(w: World, p: nat)
    requires p < |w.pollers| && w.pollers[p].phase.Resting? && w.pollers[p].prefixes != []
    ensures var w', q := Apply(w, Drain(p)), w.pollers[p];
      && OnlyPoller(w, w', p) && Same(q, w'.pollers[p])
      && (forall key :: key in w'.changed <==> key in w.changed && !Under(q.prefixes, key))
      && (forall key :: key in w'.pollers[p].pending <==> key in q.pending || (key in w.changed && Under(q.prefixes, key)))
      && w'.pollers[p].phase == if q.scanned then Working(w'.pollers[p].pending) else Listing(0, StoredUnder(w, q.prefixes[0]))
  {
  }

  function StoredUnder(w: World, prefix: string): set<Key> { set key | key in w.versions.Keys && prefix <= key }

  /** A listing passes a stored key of its own, or goes on to the next prefix once it passed all
      that was stored under this one, and is a scan once it passed all prefixes. */
  lemma ListExactly(w: World, p: nat, key: Key)
    requires p < |w.pollers| && w.pollers[p].phase.Listing?
    ensures var w', q := Apply(w, Visit(p, key)), w.pollers[p];
      if key in w.versions && Under(q.prefixes, key) then
        OnlyPoller(w, w', p) && Same(q, w'.pollers[p]) && w'.changed == w.changed
        && w'.pollers[p].pending == q.pending + {key} && w'.pollers[p].phase == Listing(q.phase.index, q.phase.todo - {key})
      else w' == w
    ensures var w', q := Apply(w, ListNext(p)), w.pollers[p];
      if q.phase.todo != {} then w' == w
      else
        && OnlyPoller(w, w', p) && w'.changed == w.changed && w'.pollers[p].pending == q.pending
        && w'.pollers[p].prefixes == q.prefixes && w'.pollers[p].settled == q.settled
        && (if q.phase.index + 1 < |q.prefixes|
            then w'.pollers[p].scanned == q.scanned
                 && w'.pollers[p].phase == Listing(q.phase.index + 1, StoredUnder(w, q.prefixes[q.phase.index + 1]))
            else w'.pollers[p].scanned && w'.pollers[p].phase == Working(q.pending))
    ensures var w', q := Apply(w, AbortScan(p)), w.pollers[p];
      OnlyPoller(w, w', p) && Same(q, w'.pollers[p]) && w'.changed == w.changed
      && w'.pollers[p].pending == q.pending && w'.pollers[p].phase.Resting?
  {
  }

  /** A key that is to be worked on is read once; it stays pending when it fails or needs
      another look, and is settled at the version read otherwise. */
  lemma HandleExactly(w: World, p: nat, key: Key, refresh: bool)
    requires p < |w.pollers|
    ensures var w', q := Apply(w, Read(p, key)), w.pollers[p];
      if q.phase.Working? && key in q.phase.queue then
        OnlyPoller(w, w', p) && Same(q, w'.pollers[p]) && w'.changed == w.changed && w'.pollers[p].pending == q.pending
        && w'.pollers[p].phase == Handling(q.phase.queue - {key}, key, if key in w.versions then w.versions[key] else 0)
      else w' == w
    ensures var w', q := Apply(w, Finish(p, refresh)), w.pollers[p];
      if q.phase.Handling? then
        && OnlyPoller(w, w', p) && w'.changed == w.changed && w'.pollers[p].phase == Working(q.phase.queue)
        && w'.pollers[p].prefixes == q.prefixes && w'.pollers[p].scanned == q.scanned
        && (if refresh then w'.pollers[p].pending == q.pending && w'.pollers[p].settled == q.settled
            else w'.pollers[p].pending == q.pending - {q.phase.key}
                 && w'.pollers[p].settled == q.settled[q.phase.key := q.phase.version])
      else w' == w
    ensures var w', q := Apply(w, Fail(p)), w.pollers[p];
      if q.phase.Handling? then
        OnlyPoller(w, w', p) && Same(q, w'.pollers[p]) && w'.changed == w.changed && w'.pollers[p].pending == q.pending
        && w'.pollers[p].phase == Working(q.phase.queue)
      else w' == w
    ensures var w', q := Apply(w, Polling.Rest(p)), w.pollers[p];
      if q.phase.Working? then
        OnlyPoller(w, w', p) && Same(q, w'.pollers[p]) && w'.changed == w.changed && w'.pollers[p].pending == q.pending
        && w'.pollers[p].phase.Resting?
      else w' == w
  {
  }

  /** A put is one more version, marked later and only under a watched prefix; a restart keeps
      what is stored and nothing else. */
  lemma WriteExactly(w: World, key: Key)
    ensures var w' := Apply(w, Put(key));
      && w'.versions == w.versions[key := 1 + if key in w.versions then w.versions[key] else 0]
      && w'.unmarked == w.unmarked + multiset{key} && w'.changed == w.changed && w'.pollers == w.pollers
    ensures var w' := Apply(w, Mark(key));
      && w'.versions == w.versions && w'.pollers == w.pollers
      && (key !in w.unmarked ==> w' == w)
      && (key in w.unmarked ==>
            w'.unmarked == w.unmarked - multiset{key}
            && w'.changed == if "formation/" <= key || "recall/" <= key || "changes/" <= key then w.changed + {key} else w.changed)
    ensures var w' := Apply(w, Restart);
      && w'.versions == w.versions && w'.unmarked == multiset{} && w'.changed == {} && |w'.pollers| == |Boot(map[]).pollers|
      && forall p :: 0 <= p < |w'.pollers| ==>
           w'.pollers[p].phase.Resting? && !w'.pollers[p].scanned && w'.pollers[p].pending == {} && w'.pollers[p].settled == map[]
  {
    assert Under(WATCHED, key) <==> "formation/" <= key || "recall/" <= key || "changes/" <= key by {
      assert WATCHED[0] == "formation/" && WATCHED[1] == "recall/" && WATCHED[2] == "changes/";
    }
  }

  /** A scanned poller that is let run settles a key of its own that is marked or pending, at
      the version that is stored, and the key is neither marked nor pending then. */
  lemma PollSettles(w: World, p: nat, key: Key)
    requires p < |w.pollers| && w.pollers[p].phase.Resting? && w.pollers[p].scanned && w.pollers[p].prefixes != []
    requires key in w.pollers[p].pending || (key in w.changed && Under(w.pollers[p].prefixes, key))
    ensures var w' := Apply(Apply(Apply(Apply(w, Drain(p)), Read(p, key)), Finish(p, false)), Polling.Rest(p));
      && w'.versions == w.versions && p < |w'.pollers| && w'.pollers[p].phase.Resting?
      && key in w'.pollers[p].settled && w'.pollers[p].settled[key] == (if key in w.versions then w.versions[key] else 0)
      && key !in w'.pollers[p].pending && (Under(w.pollers[p].prefixes, key) ==> key !in w'.changed)
  {
    DrainExactly(w, p);
    var w1 := Apply(w, Drain(p));
    HandleExactly(w1, p, key, false);
    var w2 := Apply(w1, Read(p, key));
    HandleExactly(w2, p, key, false);
    var w3 := Apply(w2, Finish(p, false));
    HandleExactly(w3, p, key, false);
    hide Apply;
  }

  /** A run goes on step by step, from two pollers that have scanned nothing. */
  lemma RunsGoOn(start: map<Key, nat>, actions: seq<Action>, action: Action)
    ensures Exec(start, []) == Boot(start) && Exec(start, actions + [action]) == Apply(Exec(start, actions), action)
  {
    assert (actions + [action])[..|actions|] == actions;
  }
}
