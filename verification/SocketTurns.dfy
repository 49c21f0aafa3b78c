/** What each turn of the service worker does, told by what it finds.

    Of every turn there is one lemma: when it does something, in terms of the socket, its callers,
    the RPCs, the timer and the settings there are, and what it leaves of each. The parts that
    several turns share, such as giving up a connection, are stated once. */
module SocketTurns {
  import opened Wrappers
  import opened ServiceWorker

  // ---------------------------------------------------------------- parts

  /** Every RPC that waited is settled by the end of its socket, and no other is touched. */
  predicate AllEnded(r: Rpcs, r': Rpcs, of: Option<nat>) {
    && r'.pending == {} && r'.timers == {} && r'.next == r.next && r'.history.Keys == r.history.Keys
    && forall id :: id in r.history ==>
         r'.history[id] == if id in r.pending then Rpc(r.history[id].on, r.history[id].outcomes + [Ended(of)]) else r.history[id]
  }

  /** One RPC that waited is settled, and no other is touched. */
  predicate OneSettled(r: Rpcs, r': Rpcs, id: nat, reason: Reason) {
    && id in r.pending && id in r.history
    && r'.pending == r.pending - {id} && r'.timers == r.timers - {id} && r'.next == r.next
    && r'.history == r.history[id := Rpc(r.history[id].on, r.history[id].outcomes + [reason])]
  }

  predicate Unarmed(r: Retry, r': Retry) {
    r'.timer.None? && r'.attempts == r.attempts && r'.events == r.events + if r.timer.Some? then [Disarmed] else []
  }

  /** A socket's state changes, and no other's. */
  predicate ReadyIs(l: Link, l': Link, ws: nat, r: Ready) {
    ws < |l.ready| && l'.ready == l.ready[ws := r] && l'.settings == l.settings
  }

  /** The socket there was is detached and told to close; nobody waits for it. */
  predicate Detached(l: Link, l': Link) {
    && l'.socket.None? && l'.opening.None? && l'.openingReject.None? && l'.openTimeout.None? && l'.waiting == {}
    && l'.socketKey == l.socketKey && l'.settings == l.settings
    && (l.socket.None? ==> l'.attached == l.attached && l'.ready == l.ready)
    && (l.socket.Some? ==> l'.attached == l.attached - {l.socket.value} && ReadyIs(l, l', l.socket.value, Closing))
  }

  /** A new socket is opened for the settings, and its callers wait for it with a timeout. */
  predicate Opens(l: Link, l': Link, s: Settings) {
    var ws := |l.ready|;
    && l'.socket == l'.opening == l'.openingReject == l'.openTimeout == Some(ws)
    && l'.ready == l.ready + [Connecting] && l'.settings == l.settings + [s]
    && l'.attached == l.attached + {ws} && l'.waiting == l.waiting + {ws} && l'.socketKey == s.key
  }

  /** Whatever was going on is given up. */
  predicate GaveUp(m: Machine, m': Machine) {
    Detached(m.link, m'.link) && AllEnded(m.rpcs, m'.rpcs, m.link.socket) && Unarmed(m.retry, m'.retry) && m'.jobs == m.jobs
  }

  lemma GivesUp(m: Machine)
    requires Inv(m)
    ensures GaveUp(m, CloseSocket(m)) && CloseSocket(m).current == m.current
  {
    var l := m.link;
    assert Less(l.waiting, l.openingReject) == {} by {
      forall ws | ws in l.waiting
        ensures Some(ws) == l.openingReject
      {
      }
    }
    hide RetryOk, JobsOk;
    assert m.rpcs.timers - m.rpcs.pending == {};
  }

  // ---------------------------------------------------------------- turns

  /** A connection that can be used, or waited for. */
  predicate Usable(m: Machine, s: Settings) {
    && (m.link.opening.Some? || (m.link.socket.Some? && m.link.socket.value < |m.link.ready| && m.link.ready[m.link.socket.value].Open?))
    && m.link.socketKey == s.key
  }

  ghost predicate Reopened(m: Machine, m': Machine, s: Settings) {
    exists given :: GaveUp(m, given) && Opens(given.link, m'.link, s)
      && m'.rpcs == given.rpcs && m'.retry == given.retry && m'.jobs == given.jobs && m'.current == s
  }

  /** A connection is made anew exactly when the settings are the current ones, with a token,
      and there is none for them to use or wait for. */
  lemma EnsureExactly(m: Machine, s: Settings)
    requires Inv(m)
    ensures var m' := Apply(m, Ensure(s));
      if s.token && s.key == m.current.key && !Usable(m, s) then Reopened(m, m', s) else m' == m
  {
    GivesUp(m);
    hide Inv, GaveUp, CloseSocket;
    if s.token && s.key == m.current.key && !Usable(m, s) {
      assert GaveUp(m, CloseSocket(m)) && Opens(CloseSocket(m).link, Apply(m, Ensure(s)).link, s);
    }
  }

  /** A timer that fires is gone, and its settings are connected to. */
  lemma FireExactly(m: Machine)
    requires Inv(m)
    ensures var m' := Apply(m, ReconnectFires);
      if m.retry.timer.None? then m' == m
      else
        var fired := m.(retry := m.retry.(timer := None, events := m.retry.events + [Fired]));
        m' == Apply(fired, Ensure(m.retry.timer.value))
  {
  }

  /** An RPC is sent exactly on an open socket, under the next identifier, and then waits with
      its timer unless the send fails. */
  lemma SendExactly(m: Machine, throws: bool)
    requires Inv(m)
    ensures var m', id := Apply(m, Send(throws)), m.rpcs.next;
      && m'.link == m.link && m'.retry == m.retry && m'.jobs == m.jobs && m'.current == m.current
      && if m.link.socket.Some? && m.link.ready[m.link.socket.value].Open? then
           && m'.rpcs.next == id + 1
           && m'.rpcs.history == m.rpcs.history[id := Rpc(m.link.socket.value, if throws then [SendFailed] else [])]
           && m'.rpcs.pending == (if throws then m.rpcs.pending - {id} else m.rpcs.pending + {id})
           && m'.rpcs.timers == (if throws then m.rpcs.timers - {id} else m.rpcs.timers + {id})
         else m' == m
  {
    hide RetryOk, JobsOk;
    assert m.rpcs.next !in m.rpcs.history;
    if m.link.socket.Some? {
      var sent := m.rpcs.history[m.rpcs.next := Rpc(m.link.socket.value, [])];
      assert [] + [SendFailed] == [SendFailed];
      assert sent[m.rpcs.next := Rpc(m.link.socket.value, [SendFailed])] == m.rpcs.history[m.rpcs.next := Rpc(m.link.socket.value, [SendFailed])];
      assert m.rpcs.pending + {m.rpcs.next} - {m.rpcs.next} == m.rpcs.pending - {m.rpcs.next};
    }
  }

  /** A socket that opens lets its callers go and forgets the failed attempts. */
  lemma OpenedExactly(m: Machine, ws: nat)
    requires Inv(m)
    ensures var m', l := Apply(m, Opened(ws)), m.link;
      if ws in l.attached && ws < |l.ready| && l.ready[ws].Connecting? then
        && ReadyIs(l, m'.link, ws, Open) && m'.link.socket == l.socket && m'.link.attached == l.attached
        && m'.link.opening.None? && m'.link.openingReject.None? && m'.link.openTimeout.None?
        && m'.link.waiting == l.waiting - {ws} && m'.link.socketKey == l.socketKey
        && m'.retry.attempts == 0 && m'.retry.timer == m.retry.timer && m'.retry.events == m.retry.events + [Connected]
        && m'.rpcs == m.rpcs && m'.jobs == m.jobs && m'.current == m.current
      else m' == m
  {
    hide RetryOk, JobsOk, RpcsOk;
  }

  /** A message counts only from the current, open socket: a response settles the RPC it is
      for, and a browser action joins the queue. */
  lemma ReceivedExactly(m: Machine, ws: nat, message: Message)
    requires Inv(m)
    ensures var m' := Apply(m, Received(ws, message));
      if m.link.socket == Some(ws) && m.link.ready[ws].Open? then
        && m'.link == m.link && m'.retry == m.retry && m'.current == m.current
        && match message
           case Response(id) =>
             m'.jobs == m.jobs && if id in m.rpcs.pending then OneSettled(m.rpcs, m'.rpcs, id, Answered(ws)) else m'.rpcs == m.rpcs
           case BrowserAction =>
             && m'.rpcs == m.rpcs && m'.jobs.queue == m.jobs.queue + [Job(ws)] && m'.jobs.arrived == m.jobs.arrived + [Job(ws)]
             && m'.jobs.running == m.jobs.running && m'.jobs.taken == m.jobs.taken && m'.jobs.started == m.jobs.started
           case Ignored => m' == m
      else m' == m
  {
    hide RetryOk, JobsOk;
  }

  /** When the current socket closes, all that waited is settled and a reconnect is scheduled
      with its own settings; a replaced one only gets closed. */
  lemma ClosedExactly(m: Machine, ws: nat)
    requires Inv(m)
    ensures var m', l := Apply(m, ClosedBy(ws)), m.link;
      if ws in l.attached && ws < |l.ready| && !l.ready[ws].Closed? then
        && l.socket == Some(ws)
        && ReadyIs(l, m'.link, ws, Closed) && m'.link.socket.None? && m'.link.opening.None?
        && m'.link.openingReject.None? && m'.link.openTimeout.None? && m'.link.waiting == {}
        && m'.link.attached == l.attached && m'.link.socketKey == l.socketKey
        && AllEnded(m.rpcs, m'.rpcs, Some(ws)) && m'.jobs == m.jobs && m'.current == m.current
        && ws < |l.settings| && Scheduled(m.retry, m'.retry, m.current, l.settings[ws])
      else m' == m
  {
    hide RetryOk, JobsOk;
    if ws in m.link.attached && ws < |m.link.ready| && !m.link.ready[ws].Closed? {
      assert m.link.waiting - {ws} == {} by {
        forall other | other in m.link.waiting
          ensures other == ws
        {
        }
      }
      assert m.rpcs.timers - m.rpcs.pending == {};
    }
  }

  /** The timer is armed for settings that are still the current ones, with a token, if it is
      not armed already, for a delay that doubles from 3 to 30 seconds. */
  predicate Scheduled(r: Retry, r': Retry, current: Settings, s: Settings) {
    if s.token && s.key == current.key && r.timer.None? then
      && r'.timer == Some(s) && r'.attempts == r.attempts + 1
      && r'.events == r.events + [Armed(if 3_000 * Power2(r.attempts) < 30_000 then 3_000 * Power2(r.attempts) else 30_000, s)]
    else r' == r
  }

  lemma ScheduleExactly(m: Machine, s: Settings)
    ensures var m' := Apply(m, Reschedule(s));
      Scheduled(m.retry, m'.retry, m.current, s) && m' == m.(retry := m'.retry)
  {
  }

  /** The opening timeout lets the callers go and closes the socket they waited for; its close
      event is still to come. */
  lemma OpenTimeoutExactly(m: Machine)
    requires Inv(m)
    ensures var m', l := Apply(m, OpenTimesOut), m.link;
      if l.openTimeout.None? then m' == m
      else
        && ReadyIs(l, m'.link, l.openTimeout.value, Closing) && m'.link.socket == l.socket && m'.link.opening == l.opening
        && m'.link.openTimeout.None? && m'.link.openingReject.None? && m'.link.waiting == {}
        && m'.link.attached == l.attached && m'.link.socketKey == l.socketKey
        && m'.rpcs == m.rpcs && m'.retry == m.retry && m'.jobs == m.jobs && m'.current == m.current
  {
    hide RetryOk, JobsOk, RpcsOk;
    if m.link.openTimeout.Some? {
      assert m.link.waiting - {m.link.openTimeout.value} == {} by {
        forall other | other in m.link.waiting
          ensures other == m.link.openTimeout.value
        {
        }
      }
    }
  }

  /** An RPC's timer settles it, and nothing else. */
  lemma RpcTimeoutExactly(m: Machine, id: nat)
    requires Inv(m)
    ensures var m' := Apply(m, RpcTimesOut(id));
      && m' == m.(rpcs := m'.rpcs)
      && if id in m.rpcs.pending then OneSettled(m.rpcs, m'.rpcs, id, TimedOut) else m'.rpcs == m.rpcs
  {
    hide RetryOk, JobsOk, LinkOk;
  }

  /** Settings for another connection, or without a token, give up what is going on. */
  lemma SettingsExactly(m: Machine, s: Settings)
    requires Inv(m)
    ensures var m' := Apply(m, SettingsLoaded(s));
      && m'.current == s
      && if s.key != m.current.key || !s.token then
           m'.link.socket.None? && m'.link.opening.None? && m'.link.waiting == {} && m'.rpcs.pending == {} && m'.retry.timer.None?
           && m'.jobs == m.jobs && (s.key == m.current.key || s.token ==> GaveUp(m, m'))
         else m' == m.(current := s)
  {
    GivesUp(m);
    if s.key != m.current.key {
      var m1 := CloseSocket(m).(current := s);
      CloseSocketKeeps(m, s);
      assert Inv(m1);
      GivesUp(m1);
    } else {
      SameKeyKeeps(m, s);
      GivesUp(m.(current := s));
    }
    hide Inv, GaveUp;
  }

  lemma SameKeyKeeps(m: Machine, s: Settings)
    requires Inv(m) && s.key == m.current.key
    ensures Inv(m.(current := s))
  {
  }

  /** The next browser action is taken in its turn, and started only if the socket that asked
      for it is the current one; the one that runs is finished. */
  lemma JobsExactly(m: Machine)
    ensures var m', j := Apply(m, StartJob), m.jobs;
      && m' == m.(jobs := m'.jobs)
      && if j.running.Some? || j.queue == [] then m'.jobs == j
         else
           && m'.jobs.queue == j.queue[1..] && m'.jobs.taken == j.taken + 1 && m'.jobs.arrived == j.arrived
           && if m.link.socket == Some(j.queue[0].origin) then
                m'.jobs.running == Some(j.queue[0]) && m'.jobs.started == j.started + [Run(j.taken, m.link.socket)]
              else m'.jobs.running.None? && m'.jobs.started == j.started
    ensures Apply(m, FinishJob) == m.(jobs := m.jobs.(running := None))
  {
  }

  /** The delays are 3, 6, 12, 24 and then always 30 seconds. */
  lemma {:induction false} DelaysExactly(n: nat)
    ensures Delay(n) == if n == 0 then 3_000 else if n == 1 then 6_000 else if n == 2 then 12_000 else if n == 3 then 24_000 else 30_000
  {
    if n > 4 {
      DelaysExactly(n - 1);
      assert Power2(n) == 2 * Power2(n - 1);
    } else {
      assert Power2(0) == 1 && Power2(1) == 2 && Power2(2) == 4 && Power2(3) == 8 && Power2(4) == 16;
    }
  }

  /** A run goes on turn by turn. */
  lemma RunsGoOn(settings: Settings, actions: seq<Action>, action: Action)
    ensures Exec(settings, []) == Start(settings) && Exec(settings, actions + [action]) == Apply(Exec(settings, actions), action)
  {
    assert (actions + [action])[..|actions|] == actions;
  }
}
