/** The extension's service worker: one socket to the daemon, the RPCs waiting on it, the
    timer that reconnects it, and the browser actions it asks for. */
module ServiceWorker {
  import opened Wrappers

  const RECONNECT_DELAY_MS := 3_000
  const MAX_RECONNECT_DELAY_MS := 30_000

  datatype Ready = Connecting | Open | Closing | Closed
  datatype Settings = Settings(key: string, token: bool)

  /** Why an RPC was settled: a response on a socket, its own timer, a failed send, or the end
      of a socket. */
  datatype Reason = Answered(from: nat) | TimedOut | SendFailed | Ended(of: Option<nat>)

  /** `settings` are what each socket was opened with, `attached` the sockets whose handlers
      are set, and `waiting` the sockets whose opening promise is not settled. */
  datatype Link = Link(
    socket: Option<nat>, ready: seq<Ready>, settings: seq<Settings>, attached: set<nat>, socketKey: string,
    opening: Option<nat>, openingReject: Option<nat>, openTimeout: Option<nat>, waiting: set<nat>)

  datatype Rpc = Rpc(on: nat, outcomes: seq<Reason>)

  /** `history` tells of every RPC the socket it was sent on and how often it was settled. */
  datatype Rpcs = Rpcs(pending: set<nat>, timers: set<nat>, next: nat, history: map<nat, Rpc>)

  datatype RetryEvent = Armed(delay: nat, settings: Settings) | Disarmed | Fired | Connected
  datatype Retry = Retry(timer: Option<Settings>, attempts: nat, events: seq<RetryEvent>)

  datatype Job = Job(origin: nat)
  datatype Run = Run(job: nat, socket: Option<nat>)

  /** `arrived` are all actions ever queued, of which `taken` left the queue. */
  datatype Jobs = Jobs(queue: seq<Job>, running: Option<Job>, arrived: seq<Job>, taken: nat, started: seq<Run>)

  datatype Machine = Machine(link: Link, rpcs: Rpcs, retry: Retry, jobs: Jobs, current: Settings)

  datatype Message = Response(id: nat) | BrowserAction | Ignored

  /** An action is one run-to-completion turn of the worker: a socket event, a timer, a
      settings change or the continuation of a call. Sockets are numbered as they are created. */
  datatype Action =
    | Ensure(settings: Settings)
    | Send(throws: bool)
    | Opened(ws: nat)
    | Received(ws: nat, message: Message)
    | ClosedBy(ws: nat)
    | OpenTimesOut
    | RpcTimesOut(id: nat)
    | SettingsLoaded(settings: Settings)
    | Reschedule(settings: Settings)
    | ReconnectFires
    | StartJob
    | FinishJob

  function Start(settings: Settings): Machine {
    Machine(Link(None, [], [], {}, "", None, None, None, {}), Rpcs({}, {}, 1, map[]), Retry(None, 0, []),
            Jobs([], None, [], 0, []), settings)
  }

  predicate IsOpen(l: Link) { l.socket.Some? && l.socket.value < |l.ready| && l.ready[l.socket.value].Open? }

  // ---------------------------------------------------------------- the socket

  function Set(ready: seq<Ready>, ws: nat, r: Ready): seq<Ready> { if ws < |ready| then ready[ws := r] else ready }

  function AskClose(ready: seq<Ready>, ws: nat): seq<Ready> {
    if ws < |ready| && !ready[ws].Closed? then ready[ws := Closing] else ready
  }

  function Less(waiting: set<nat>, ws: Option<nat>): set<nat> { if ws.Some? then waiting - {ws.value} else waiting }

  function CloseLink(l: Link): Link {
    Link(None, if l.socket.Some? then AskClose(l.ready, l.socket.value) else l.ready, l.settings,
         Less(l.attached, l.socket), l.socketKey, None, None, None, Less(l.waiting, l.openingReject))
  }

  function OpenLink(l: Link, s: Settings): Link {
    var ws := |l.ready|;
    Link(Some(ws), l.ready + [Connecting], l.settings + [s], l.attached + {ws}, s.key,
         Some(ws), Some(ws), Some(ws), l.waiting + {ws})
  }

  function Reject(rpcs: Rpcs, of: Option<nat>): Rpcs {
    Rpcs({}, rpcs.timers - rpcs.pending, rpcs.next,
         map id | id in rpcs.history :: if id in rpcs.pending then Settled(rpcs.history[id], Ended(of)) else rpcs.history[id])
  }

  function Settled(rpc: Rpc, reason: Reason): Rpc { rpc.(outcomes := rpc.outcomes + [reason]) }

  function Settle(rpcs: Rpcs, id: nat, reason: Reason): Rpcs {
    rpcs.(pending := rpcs.pending - {id}, timers := rpcs.timers - {id},
          history := if id in rpcs.history then rpcs.history[id := Settled(rpcs.history[id], reason)] else rpcs.history)
  }

  function Disarm(r: Retry): Retry {
    if r.timer.Some? then r.(timer := None, events := r.events + [Disarmed]) else r
  }

  function CloseSocket(m: Machine): Machine {
    m.(link := CloseLink(m.link), rpcs := Reject(m.rpcs, m.link.socket), retry := Disarm(m.retry))
  }

  function EnsureSocket(m: Machine, s: Settings): Machine {
    if !s.token || s.key != m.current.key then m
    else if (IsOpen(m.link) || m.link.opening.Some?) && m.link.socketKey == s.key then m
    else
      var m' := CloseSocket(m);
      m'.(link := OpenLink(m'.link, s), current := s)
  }

  function OnOpen(m: Machine, ws: nat): Machine {
    var l := m.link;
    m.(link := l.(ready := Set(l.ready, ws, Open), openTimeout := None, openingReject := None, opening := None,
                  waiting := l.waiting - {ws}),
       retry := m.retry.(attempts := 0, events := m.retry.events + [Connected]))
  }

  function OnClose(m: Machine, ws: nat): Machine {
    var l := m.link.(ready := Set(m.link.ready, ws, Closed), openTimeout := None, openingReject := None,
                     waiting := m.link.waiting - {ws});
    if m.link.socket == Some(ws) then
      var m' := m.(link := l.(socket := None, opening := None), rpcs := Reject(m.rpcs, Some(ws)));
      if ws < |l.settings| then Schedule(m', l.settings[ws]) else m'
    else m.(link := l)
  }

  function OnOpenTimeout(m: Machine, ws: nat): Machine {
    m.(link := m.link.(openTimeout := None, openingReject := None, waiting := m.link.waiting - {ws},
                       ready := AskClose(m.link.ready, ws)))
  }

  // ---------------------------------------------------------------- the reconnect timer

  function Power2(n: nat): nat { if n == 0 then 1 else 2 * Power2(n - 1) }

  function Delay(attempts: nat): nat {
    var doubled := RECONNECT_DELAY_MS * Power2(attempts);
    if doubled < MAX_RECONNECT_DELAY_MS then doubled else MAX_RECONNECT_DELAY_MS
  }

  function Schedule(m: Machine, s: Settings): Machine {
    if !s.token || m.retry.timer.Some? || s.key != m.current.key then m
    else m.(retry := Retry(Some(s), m.retry.attempts + 1, m.retry.events + [Armed(Delay(m.retry.attempts), s)]))
  }

  // ---------------------------------------------------------------- messages

  function SendOn(m: Machine, throws: bool): Machine {
    if !IsOpen(m.link) then m
    else
      var r, id := m.rpcs, m.rpcs.next;
      var sent := r.(next := id + 1, pending := r.pending + {id}, timers := r.timers + {id},
                     history := r.history[id := Rpc(m.link.socket.value, [])]);
      m.(rpcs := if throws then Settle(sent, id, SendFailed) else sent)
  }

  function OnMessage(m: Machine, ws: nat, message: Message): Machine {
    if m.link.socket != Some(ws) then m
    else
      match message
      case Response(id) => if id in m.rpcs.pending then m.(rpcs := Settle(m.rpcs, id, Answered(ws))) else m
      case BrowserAction =>
        m.(jobs := m.jobs.(queue := m.jobs.queue + [Job(ws)], arrived := m.jobs.arrived + [Job(ws)]))
      case Ignored => m
  }

  function NextJob(j: Jobs, socket: Option<nat>): Jobs {
    if j.running.Some? || j.queue == [] then j
    else
      var head := j.queue[0];
      var popped := j.(queue := j.queue[1..], taken := j.taken + 1);
      if socket == Some(head.origin) then popped.(running := Some(head), started := j.started + [Run(j.taken, socket)])
      else popped
  }

  // ---------------------------------------------------------------- the turns

  predicate Delivers(l: Link, ws: nat) { ws in l.attached && ws < |l.ready| }

  function Apply(m: Machine, action: Action): Machine {
    match action
    case Ensure(s) => EnsureSocket(m, s)
    case Send(throws) => SendOn(m, throws)
    case Opened(ws) => if Delivers(m.link, ws) && m.link.ready[ws].Connecting? then OnOpen(m, ws) else m
    case Received(ws, message) =>
      if Delivers(m.link, ws) && m.link.ready[ws].Open? then OnMessage(m, ws, message) else m
    case ClosedBy(ws) => if Delivers(m.link, ws) && !m.link.ready[ws].Closed? then OnClose(m, ws) else m
    case OpenTimesOut => if m.link.openTimeout.Some? then OnOpenTimeout(m, m.link.openTimeout.value) else m
    case RpcTimesOut(id) => if id in m.rpcs.timers then m.(rpcs := Settle(m.rpcs, id, TimedOut)) else m
    case SettingsLoaded(s) =>
      var m' := (if s.key != m.current.key then CloseSocket(m) else m).(current := s);
      if s.token then m' else CloseSocket(m')
    case Reschedule(s) => Schedule(m, s)
    case ReconnectFires =>
      if m.retry.timer.None? then m
      else EnsureSocket(m.(retry := m.retry.(timer := None, events := m.retry.events + [Fired])), m.retry.timer.value)
    case StartJob => m.(jobs := NextJob(m.jobs, m.link.socket))
    case FinishJob => m.(jobs := m.jobs.(running := None))
  }

  function Exec(settings: Settings, actions: seq<Action>): Machine {
    if actions == [] then Start(settings)
    else Apply(Exec(settings, actions[..|actions| - 1]), actions[|actions| - 1])
  }

  // ---------------------------------------------------------------- what every turn keeps

  /** Only the current socket can still speak, and only it can keep a caller waiting. */
  ghost predicate LinkOk(l: Link) {
    && |l.settings| == |l.ready|
    && (l.socket.Some? ==> l.socket.value < |l.ready| && l.socket.value in l.attached)
    && (l.socket.Some? ==> !l.ready[l.socket.value].Closed? && l.settings[l.socket.value].key == l.socketKey)
    && (forall ws :: ws in l.attached ==> ws < |l.ready| && (l.socket == Some(ws) || l.ready[ws].Closed?))
    && (forall ws :: ws in l.waiting ==> Some(ws) == l.socket == l.opening == l.openingReject == l.openTimeout)
    && (forall ws :: ws in l.waiting ==> ws < |l.ready| && l.ready[ws].Connecting?)
    && (l.opening.Some? ==> l.socket == l.opening)
    && (l.openTimeout.Some? ==> l.openTimeout.value in l.waiting)
    && (l.openingReject.Some? ==> l.openingReject.value in l.waiting)
    && (l.socket.Some? && l.ready[l.socket.value].Connecting? ==> l.socket.value in l.waiting)
  }

  /** Every RPC is waiting on the current socket or was settled once, by what may settle it. */
  ghost predicate RpcOk(r: Rpcs, socket: Option<nat>, id: nat) {
    id in r.history ==>
      var rpc := r.history[id];
      if id in r.pending then rpc.outcomes == [] && socket == Some(rpc.on)
      else |rpc.outcomes| == 1 && Fair(rpc)
  }

  predicate Fair(rpc: Rpc)
    requires |rpc.outcomes| == 1
  {
    match rpc.outcomes[0]
    case Answered(from) => from == rpc.on
    case Ended(of) => of == Some(rpc.on)
    case _ => true
  }

  ghost predicate RpcsOk(r: Rpcs, socket: Option<nat>) {
    && r.pending == r.timers && r.pending <= r.history.Keys && r.next !in r.history
    && (forall id :: id in r.history ==> id < r.next)
    && (forall id :: RpcOk(r, socket, id))
  }

  /** How often the timer was armed since the last connection. */
  function Attempts(events: seq<RetryEvent>): nat {
    if events == [] then 0
    else
      var rest := Attempts(events[..|events| - 1]);
      match events[|events| - 1]
      case Armed(_, _) => rest + 1
      case Connected => 0
      case _ => rest
  }

  function Timer(events: seq<RetryEvent>): Option<Settings> {
    if events == [] then None
    else
      match events[|events| - 1]
      case Armed(_, s) => Some(s)
      case Connected => Timer(events[..|events| - 1])
      case _ => None
  }

  predicate MayCome(events: seq<RetryEvent>, e: RetryEvent) {
    match e
    case Armed(delay, _) => Timer(events).None? && delay == Delay(Attempts(events))
    case Connected => true
    case _ => Timer(events).Some?
  }

  ghost predicate RetryOk(r: Retry, current: Settings) {
    && r.timer == Timer(r.events) && r.attempts == Attempts(r.events)
    && (forall k :: 0 <= k < |r.events| ==> MayCome(r.events[..k], r.events[k]))
    && (r.timer.Some? ==> r.timer.value.key == current.key && r.timer.value.token)
  }

  ghost predicate JobsOk(j: Jobs) {
    && j.taken <= |j.arrived| && j.queue == j.arrived[j.taken..]
    && (forall k :: 0 <= k < |j.started| ==>
          j.started[k].job < j.taken && j.started[k].socket == Some(j.arrived[j.started[k].job].origin))
    && (forall i, k :: 0 <= i < k < |j.started| ==> j.started[i].job < j.started[k].job)
  }

  ghost predicate Inv(m: Machine) {
    LinkOk(m.link) && RpcsOk(m.rpcs, m.link.socket) && RetryOk(m.retry, m.current) && JobsOk(m.jobs)
  }

  lemma RejectKeeps(r: Rpcs, socket: Option<nat>, next: Option<nat>)
    requires RpcsOk(r, socket)
    ensures RpcsOk(Reject(r, socket), next)
  {
    var r' := Reject(r, socket);
    forall id
      ensures RpcOk(r', next, id)
    {
      assert RpcOk(r, socket, id);
    }
  }

  lemma SettleKeeps(r: Rpcs, socket: Option<nat>, id: nat, reason: Reason)
    requires RpcsOk(r, socket) && id in r.pending
    requires Fair(Rpc(r.history[id].on, [reason]))
    ensures RpcsOk(Settle(r, id, reason), socket)
  {
    var r' := Settle(r, id, reason);
    forall k
      ensures RpcOk(r', socket, k)
    {
      assert RpcOk(r, socket, k);
    }
  }

  lemma EventKeeps(r: Retry, current: Settings, r': Retry, e: RetryEvent)
    requires RetryOk(r, current) && MayCome(r.events, e) && r'.events == r.events + [e]
    requires e.Armed? ==> r'.timer == Some(e.settings) && e.settings.token && e.settings.key == current.key
    requires e.Armed? ==> r'.attempts == r.attempts + 1
    requires e.Connected? ==> r'.timer == r.timer && r'.attempts == 0
    requires e.Disarmed? || e.Fired? ==> r'.timer == None && r'.attempts == r.attempts
    ensures RetryOk(r', current)
  {
    assert r'.events[..|r.events|] == r.events;
    forall k | 0 <= k < |r'.events|
      ensures MayCome(r'.events[..k], r'.events[k])
    {
      assert r'.events[..k] == r.events[..k];
      assert k == |r.events| ==> r'.events[..k] == r.events;
    }
  }

  lemma DisarmKeeps(r: Retry, current: Settings, next: Settings)
    requires RetryOk(r, current)
    ensures RetryOk(Disarm(r), next)
  {
    if r.timer.Some? {
      EventKeeps(r, current, Disarm(r), Disarmed);
    }
  }

  lemma CloseSocketKeeps(m: Machine, next: Settings)
    requires Inv(m)
    ensures Inv(CloseSocket(m).(current := next)) && CloseSocket(m).link.socket.None?
    ensures CloseSocket(m).link.waiting == {} && CloseSocket(m).link.opening.None?
  {
    RejectKeeps(m.rpcs, m.link.socket, None);
    DisarmKeeps(m.retry, m.current, next);
    hide RpcsOk, RetryOk, JobsOk;
  }

  lemma EnsureSocketKeeps(m: Machine, s: Settings)
    requires Inv(m)
    ensures Inv(EnsureSocket(m, s))
  {
    var m1 := CloseSocket(m).(current := s);
    CloseSocketKeeps(m, s);
    var m2 := m1.(link := OpenLink(m1.link, s));
    assert RpcsOk(m2.rpcs, m2.link.socket) by {
      assert forall id :: RpcOk(m1.rpcs, None, id) ==> RpcOk(m2.rpcs, m2.link.socket, id);
    }
    hide RpcsOk, RetryOk, JobsOk, CloseSocket;
    assert LinkOk(m2.link);
  }

  lemma OnOpenKeeps(m: Machine, ws: nat)
    requires Inv(m) && Delivers(m.link, ws) && m.link.ready[ws].Connecting?
    ensures Inv(OnOpen(m, ws))
  {
    EventKeeps(m.retry, m.current, OnOpen(m, ws).retry, Connected);
    hide RpcsOk, RetryOk, JobsOk;
  }

  lemma ScheduleKeeps(m: Machine, s: Settings)
    requires Inv(m)
    ensures Inv(Schedule(m, s))
  {
    if Schedule(m, s) != m {
      EventKeeps(m.retry, m.current, Schedule(m, s).retry, Armed(Delay(m.retry.attempts), s));
    }
  }

  lemma OnCloseKeeps(m: Machine, ws: nat)
    requires Inv(m) && Delivers(m.link, ws) && !m.link.ready[ws].Closed?
    ensures Inv(OnClose(m, ws))
  {
    RejectKeeps(m.rpcs, m.link.socket, None);
    hide RpcsOk, RetryOk, JobsOk;
    var l := m.link.(ready := Set(m.link.ready, ws, Closed), openTimeout := None, openingReject := None,
                     waiting := m.link.waiting - {ws}, socket := None, opening := None);
    assert m.link.socket == Some(ws);
    assert LinkOk(l);
    ScheduleKeeps(m.(link := l, rpcs := Reject(m.rpcs, Some(ws))), m.link.settings[ws]);
  }

  lemma OnOpenTimeoutKeeps(m: Machine)
    requires Inv(m) && m.link.openTimeout.Some?
    ensures Inv(OnOpenTimeout(m, m.link.openTimeout.value))
  {
    hide RpcsOk, RetryOk, JobsOk;
  }

  lemma SendKeeps(m: Machine, throws: bool)
    requires Inv(m)
    ensures Inv(SendOn(m, throws))
  {
    if IsOpen(m.link) {
      var r, id := m.rpcs, m.rpcs.next;
      var sent := r.(next := id + 1, pending := r.pending + {id}, timers := r.timers + {id},
                     history := r.history[id := Rpc(m.link.socket.value, [])]);
      assert RpcsOk(sent, m.link.socket) by {
        assert forall k :: RpcOk(r, m.link.socket, k) ==> RpcOk(sent, m.link.socket, k);
      }
      SettleKeeps(sent, m.link.socket, id, SendFailed);
    }
  }

  lemma OnMessageKeeps(m: Machine, ws: nat, message: Message)
    requires Inv(m)
    ensures Inv(OnMessage(m, ws, message))
  {
    if message.Response? && message.id in m.rpcs.pending && m.link.socket == Some(ws) {
      assert RpcOk(m.rpcs, m.link.socket, message.id);
      SettleKeeps(m.rpcs, m.link.socket, message.id, Answered(ws));
    }
  }

  lemma ApplyKeeps(m: Machine, action: Action)
    requires Inv(m)
    ensures Inv(Apply(m, action))
  {
    hide LinkOk, RpcsOk, RetryOk, JobsOk, CloseSocket, EnsureSocket, OnOpen, OnClose, OnOpenTimeout, SendOn, OnMessage;
    match action
    case Ensure(s) => EnsureSocketKeeps(m, s);
    case Send(throws) => SendKeeps(m, throws);
    case Opened(ws) => if Delivers(m.link, ws) && m.link.ready[ws].Connecting? { OnOpenKeeps(m, ws); }
    case Received(ws, message) => OnMessageKeeps(m, ws, message);
    case ClosedBy(ws) => if Delivers(m.link, ws) && !m.link.ready[ws].Closed? { OnCloseKeeps(m, ws); }
    case OpenTimesOut => if m.link.openTimeout.Some? { OnOpenTimeoutKeeps(m); }
    case RpcTimesOut(id) => if id in m.rpcs.timers { RpcTimeoutKeeps(m, id); }
    case SettingsLoaded(s) => SettingsKeep(m, s);
    case Reschedule(s) => ScheduleKeeps(m, s);
    case ReconnectFires => if m.retry.timer.Some? { FireKeeps(m); }
    case StartJob => JobsKeep(m);
    case FinishJob => JobsKeep(m);
  }

  lemma RpcTimeoutKeeps(m: Machine, id: nat)
    requires Inv(m) && id in m.rpcs.timers
    ensures Inv(m.(rpcs := Settle(m.rpcs, id, TimedOut)))
  {
    SettleKeeps(m.rpcs, m.link.socket, id, TimedOut);
  }

  lemma SettingsKeep(m: Machine, s: Settings)
    requires Inv(m)
    ensures Inv(Apply(m, SettingsLoaded(s)))
  {
    CloseSocketKeeps(m, s);
    var m' := (if s.key != m.current.key then CloseSocket(m) else m).(current := s);
    hide CloseSocket, LinkOk, RpcsOk, JobsOk;
    if s.key == m.current.key && s.token {
      assert RetryOk(m'.retry, s);
    } else {
      SettingsDrop(m, m', s);
    }
  }

  lemma SettingsDrop(m: Machine, m': Machine, s: Settings)
    requires Inv(m) && m' == (if s.key != m.current.key then CloseSocket(m) else m).(current := s)
    ensures Inv(CloseSocket(m')) && (s.key != m.current.key ==> Inv(m'))
  {
    CloseSocketKeeps(m, s);
    if s.key != m.current.key {
      CloseSocketKeeps(m', s);
    } else {
      assert CloseSocket(m') == CloseSocket(m).(current := s);
    }
  }

  lemma FireKeeps(m: Machine)
    requires Inv(m) && m.retry.timer.Some?
    ensures Inv(Apply(m, ReconnectFires))
  {
    var m' := m.(retry := m.retry.(timer := None, events := m.retry.events + [Fired]));
    EventKeeps(m.retry, m.current, m'.retry, Fired);
    EnsureSocketKeeps(m', m.retry.timer.value);
  }

  lemma JobsKeep(m: Machine)
    requires Inv(m)
    ensures Inv(m.(jobs := NextJob(m.jobs, m.link.socket))) && Inv(m.(jobs := m.jobs.(running := None)))
  {
  }

  lemma {:induction false} InvHolds(settings: Settings, actions: seq<Action>)
    ensures Inv(Exec(settings, actions))
  {
    if actions != [] {
      InvHolds(settings, actions[..|actions| - 1]);
      ApplyKeeps(Exec(settings, actions[..|actions| - 1]), actions[|actions| - 1]);
    }
  }

  // ---------------------------------------------------------------- over every run

  /** An RPC is waiting, on the current socket and with its timer running, or it was settled
      exactly once: by a response on its own socket, its timer, its failed send, or the end of
      its socket. */
  lemma {:induction false} SettledOnceByItsOwn(settings: Settings, actions: seq<Action>, id: nat)
    requires id in Exec(settings, actions).rpcs.history
    ensures var m := Exec(settings, actions);
      var rpc := m.rpcs.history[id];
      if id in m.rpcs.pending then rpc.outcomes == [] && id in m.rpcs.timers && m.link.socket == Some(rpc.on)
      else |rpc.outcomes| == 1 && id !in m.rpcs.timers && Fair(rpc)
  {
    InvHolds(settings, actions);
    assert RpcOk(Exec(settings, actions).rpcs, Exec(settings, actions).link.socket, id);
  }

  /** No event of a replaced socket does anything. */
  lemma {:induction false} ReplacedSocketIsSilent(settings: Settings, actions: seq<Action>, ws: nat, message: Message)
    requires Exec(settings, actions).link.socket != Some(ws)
    ensures var m := Exec(settings, actions);
      Apply(m, Opened(ws)) == m && Apply(m, Received(ws, message)) == m && Apply(m, ClosedBy(ws)) == m
  {
    InvHolds(settings, actions);
  }

  /** A caller waiting for a connection waits on the current socket, which is still connecting
      and whose timeout is set; that timeout lets it go. */
  lemma {:induction false} NobodyWaitsForever(settings: Settings, actions: seq<Action>)
    ensures var m := Exec(settings, actions);
      m.link.waiting != {} ==>
        && m.link.socket.Some? && m.link.waiting == {m.link.socket.value} && m.link.openTimeout == m.link.socket
        && Apply(m, OpenTimesOut).link.waiting == {}
  {
    InvHolds(settings, actions);
    var l := Exec(settings, actions).link;
    if l.waiting != {} {
      var ws :| ws in l.waiting;
      assert l.waiting == {ws};
    }
  }

  /** The timer is armed only while none is, and the n-th time since the last connection with
      a delay of min(30000, 3000 * 2^n). */
  lemma {:induction false} DelaysDouble(settings: Settings, actions: seq<Action>, k: nat)
    requires k < |Exec(settings, actions).retry.events| && Exec(settings, actions).retry.events[k].Armed?
    ensures var events := Exec(settings, actions).retry.events;
      Timer(events[..k]).None? && events[k].delay == Delay(Attempts(events[..k]))
  {
    InvHolds(settings, actions);
    var events := Exec(settings, actions).retry.events;
    assert MayCome(events[..k], events[k]);
  }

  /** An armed timer is for the current connection settings. */
  lemma {:induction false} TimerIsForCurrentSettings(settings: Settings, actions: seq<Action>)
    requires Exec(settings, actions).retry.timer.Some?
    ensures Exec(settings, actions).retry.timer.value.key == Exec(settings, actions).current.key
  {
    InvHolds(settings, actions);
  }

  /** A browser action starts only while the socket that asked for it is the current one. */
  lemma {:induction false} ActionsStartOnTheirSocket(settings: Settings, actions: seq<Action>, k: nat)
    requires k < |Exec(settings, actions).jobs.started|
    ensures var j := Exec(settings, actions).jobs;
      j.started[k].job < |j.arrived| && j.started[k].socket == Some(j.arrived[j.started[k].job].origin)
  {
    InvHolds(settings, actions);
  }

  /** Browser actions start in the order they arrived, each at most once, and only while the
      socket that asked is the current one. */
  lemma {:induction false} ActionsStartInOrder(settings: Settings, actions: seq<Action>, i: nat, k: nat)
    requires i < k < |Exec(settings, actions).jobs.started|
    ensures var j := Exec(settings, actions).jobs;
      j.started[i].job < j.started[k].job < |j.arrived| && j.started[k].socket == Some(j.arrived[j.started[k].job].origin)
  {
    InvHolds(settings, actions);
  }

  // ---------------------------------------------------------------- the worker's code

  /** The worker's variables; `ready` and `attached` are the sockets' own state. */
  class Worker {
    var socket: Option<nat>
    var ready: seq<Ready>
    var attached: set<nat>
    var socketKey: string
    var opening: Option<nat>
    var openingReject: Option<nat>
    var openTimeout: Option<nat>
    var pending: set<nat>
    var timers: set<nat>
    var nextMessageId: nat
    var reconnectTimer: Option<Settings>
    var reconnectAttempts: nat
    var browserActionQueue: seq<Job>
    var running: Option<Job>
    var currentSettings: Settings
    var openedWith: seq<Settings>
    ghost var waiting: set<nat>
    ghost var history: map<nat, Rpc>
    ghost var events: seq<RetryEvent>
    ghost var arrived: seq<Job>
    ghost var taken: nat
    ghost var started: seq<Run>

    ghost function LinkNow(): Link
      reads `socket, `ready, `openedWith, `attached, `socketKey, `opening, `openingReject, `openTimeout, `waiting
    {
      Link(socket, ready, openedWith, attached, socketKey, opening, openingReject, openTimeout, waiting)
    }

    ghost function RpcsNow(): Rpcs
      reads `pending, `timers, `nextMessageId, `history
    {
      Rpcs(pending, timers, nextMessageId, history)
    }

    ghost function RetryNow(): Retry
      reads `reconnectTimer, `reconnectAttempts, `events
    {
      Retry(reconnectTimer, reconnectAttempts, events)
    }

    ghost function JobsNow(): Jobs
      reads `browserActionQueue, `running, `arrived, `taken, `started
    {
      Jobs(browserActionQueue, running, arrived, taken, started)
    }

    ghost function State(): Machine
      reads this
    {
      Machine(LinkNow(), RpcsNow(), RetryNow(), JobsNow(), currentSettings)
    }

    constructor (settings: Settings)
      ensures State() == Start(settings)
    {
      socket, ready, attached, socketKey, openedWith := None, [], {}, "", [];
      opening, openingReject, openTimeout, waiting := None, None, None, {};
      pending, timers, nextMessageId, history := {}, {}, 1, map[];
      reconnectTimer, reconnectAttempts, events := None, 0, [];
      browserActionQueue, running, arrived, taken, started := [], None, [], 0, [];
      currentSettings := settings;
    }

    method SettleOne(id: nat, reason: Reason)
      modifies `pending, `timers, `history
      ensures RpcsNow() == Settle(old(RpcsNow()), id, reason)
    {
      pending, timers := pending - {id}, timers - {id};
      if id in history {
        history := history[id := Settled(history[id], reason)];
      }
    }

    method RejectPending(ghost of: Option<nat>)
      modifies `pending, `timers, `history
      ensures RpcsNow() == Reject(old(RpcsNow()), of)
    {
      ghost var was := history;
      ghost var all := pending;
      while pending != {}
        invariant pending <= all && timers == old(timers) - (all - pending)
        invariant history.Keys == was.Keys
        invariant forall id :: id in was ==>
          history[id] == if id in all - pending then Settled(was[id], Ended(of)) else was[id]
        decreases pending
      {
        var id :| id in pending;
        pending, timers := pending - {id}, timers - {id};
        if id in history {
          history := history[id := Settled(history[id], Ended(of))];
        }
      }
    }

    method DisarmReconnect()
      modifies `reconnectTimer, `events
      ensures RetryNow() == Disarm(old(RetryNow()))
    {
      if reconnectTimer.Some? {
        reconnectTimer := None;
        events := events + [Disarmed];
      }
    }

    method DropSocket()
      modifies `socket, `ready, `attached, `opening, `openingReject, `openTimeout, `waiting
      ensures LinkNow() == CloseLink(old(LinkNow()))
    {
      if openingReject.Some? {
        waiting := waiting - {openingReject.value};
      }
      if socket.Some? {
        attached := attached - {socket.value};
        if socket.value < |ready| && !ready[socket.value].Closed? {
          ready := ready[socket.value := Closing];
        }
      }
      socket, opening, openingReject, openTimeout := None, None, None, None;
    }

    /** Nothing of the old socket is heard again, and nobody is left waiting for it. */
    method CloseTheSocket()
      modifies `pending, `timers, `history, `reconnectTimer, `events
      modifies `socket, `ready, `attached, `opening, `openingReject, `openTimeout, `waiting
      ensures State() == CloseSocket(old(State()))
    {
      hide CloseLink, Disarm, Reject, RpcsNow, RetryNow, JobsNow;
      ghost var of := socket;
      DisarmReconnect();
      DropSocket();
      RejectPending(of);
    }

    method OpenSocket(s: Settings)
      modifies `socket, `ready, `openedWith, `attached, `socketKey, `opening, `openingReject, `openTimeout, `waiting
      ensures LinkNow() == OpenLink(old(LinkNow()), s)
    {
      var ws := |ready|;
      ready, openedWith, attached, socketKey := ready + [Connecting], openedWith + [s], attached + {ws}, s.key;
      socket, opening, openingReject, openTimeout := Some(ws), Some(ws), Some(ws), Some(ws);
      waiting := waiting + {ws};
    }

    method Connect(s: Settings) returns (refused: bool)
      modifies this
      ensures State() == EnsureSocket(old(State()), s)
      ensures refused <==> !s.token || s.key != old(currentSettings).key
    {
      hide OpenLink, CloseSocket;
      if !s.token || s.key != currentSettings.key {
        return true;
      }
      if socket.Some? && socket.value < |ready| && ready[socket.value].Open? && socketKey == s.key {
        return false;
      }
      if opening.Some? && socketKey == s.key {
        return false;
      }
      Reopen(s);
      return false;
    }

    method Reopen(s: Settings)
      modifies this
      ensures var closed := CloseSocket(old(State()));
        State() == closed.(link := OpenLink(closed.link, s), current := s)
    {
      hide OpenLink, CloseSocket, RpcsNow, RetryNow, JobsNow;
      CloseTheSocket();
      OpenSocket(s);
      currentSettings := s;
    }

    method ScheduleReconnect(s: Settings)
      modifies `reconnectTimer, `reconnectAttempts, `events
      ensures State() == Schedule(old(State()), s)
    {
      if !s.token || reconnectTimer.Some? || s.key != currentSettings.key {
        return;
      }
      events := events + [Armed(Delay(reconnectAttempts), s)];
      reconnectAttempts := reconnectAttempts + 1;
      reconnectTimer := Some(s);
    }

    method HandleClose(ws: nat)
      requires ws < |ready| && |openedWith| == |ready|
      modifies `socket, `ready, `opening, `openingReject, `openTimeout, `waiting
      modifies `pending, `timers, `history, `reconnectTimer, `reconnectAttempts, `events
      ensures State() == OnClose(old(State()), ws)
    {
      hide Reject, Schedule, RpcsNow, RetryNow, JobsNow;
      var current := socket == Some(ws);
      MarkClosed(ws);
      if current {
        RejectPending(Some(ws));
        ScheduleReconnect(openedWith[ws]);
      }
    }

    method MarkClosed(ws: nat)
      requires ws < |ready|
      modifies `socket, `ready, `opening, `openingReject, `openTimeout, `waiting
      ensures var l := old(LinkNow()).(ready := Set(old(ready), ws, Closed), openTimeout := None, openingReject := None,
                                       waiting := old(waiting) - {ws});
        LinkNow() == if old(socket) == Some(ws) then l.(socket := None, opening := None) else l
    {
      if socket == Some(ws) {
        socket, opening := None, None;
      }
      ready := ready[ws := Closed];
      openTimeout, openingReject, waiting := None, None, waiting - {ws};
    }

    method HandleOpen(ws: nat)
      requires ws < |ready|
      modifies `ready, `opening, `openingReject, `openTimeout, `waiting, `reconnectAttempts, `events
      ensures State() == OnOpen(old(State()), ws)
    {
      MarkOpen(ws);
      reconnectAttempts, events := 0, events + [Connected];
    }

    method MarkOpen(ws: nat)
      requires ws < |ready|
      modifies `ready, `opening, `openingReject, `openTimeout, `waiting
      ensures LinkNow() == old(LinkNow()).(ready := Set(old(ready), ws, Open), openTimeout := None,
                                           openingReject := None, opening := None, waiting := old(waiting) - {ws})
    {
      openTimeout, openingReject, opening, waiting := None, None, None, waiting - {ws};
      ready := ready[ws := Open];
    }

    /** What `sendRpc` does once a connection was awaited. */
    method SendRequest(throws: bool) returns (id: Option<nat>)
      modifies `pending, `timers, `nextMessageId, `history
      ensures State() == SendOn(old(State()), throws)
      ensures id.Some? <==> IsOpen(old(State()).link)
    {
      if socket.None? || socket.value >= |ready| || !ready[socket.value].Open? {
        return None;
      }
      id := Some(nextMessageId);
      Await(nextMessageId, socket.value);
      if throws {
        SettleOne(id.value, SendFailed);
      }
    }

    method Await(id: nat, ghost on: nat)
      requires id == nextMessageId
      modifies `pending, `timers, `nextMessageId, `history
      ensures RpcsNow() == Rpcs(old(pending) + {id}, old(timers) + {id}, id + 1, old(history)[id := Rpc(on, [])])
    {
      nextMessageId := id + 1;
      pending, timers := pending + {id}, timers + {id};
      history := history[id := Rpc(on, [])];
    }

    method HandleMessage(ws: nat, message: Message)
      modifies `pending, `timers, `history, `browserActionQueue, `arrived
      ensures State() == OnMessage(old(State()), ws, message)
    {
      if socket != Some(ws) {
        return;
      }
      match message {
        case BrowserAction =>
          browserActionQueue := browserActionQueue + [Job(ws)];
          arrived := arrived + [Job(ws)];
        case Response(id) =>
          if id in pending {
            SettleOne(id, Answered(ws));
          }
        case Ignored =>
      }
    }

    /** The next queued action runs only while the socket that asked is the current one. */
    method RunNext() returns (runs: bool)
      modifies `browserActionQueue, `running, `taken, `started
      ensures State() == old(State()).(jobs := NextJob(old(State()).jobs, socket))
      ensures runs ==> running.Some? && socket == Some(running.value.origin)
    {
      if running.Some? || browserActionQueue == [] {
        return false;
      }
      var head := browserActionQueue[0];
      browserActionQueue := browserActionQueue[1..];
      runs := socket == Some(head.origin);
      if runs {
        running := Some(head);
        started := started + [Run(taken, socket)];
      }
      taken := taken + 1;
    }
  }
}
