/** Owner-confirmed memory changes: one operation, from its preview to its settlement. */
module Mutation {
  import opened Wrappers

  datatype Kind = Delete | Misrecorded | Other
  datatype State = Prepared | Committing | Reconciling | Confirmed | Discarded | Failed | Blocked

  /** A native change as its service tells it: its state, and the text of the record its
      preview holds. */
  datatype Receipt = Receipt(state: State, quote: string)

  /** The stored change. `before` is the text its own preview shows and `receipt` the native
      receipt it copied; a misrecording has none. */
  datatype Record = Record(
    kind: Kind, operation: string, target: string, expiresAt: nat, state: State,
    before: Option<string>, affected: seq<string>, newValue: Option<string>,
    error: Option<string>, receipt: Option<Receipt>)

  /** What is sent to Brain, key and payload. */
  datatype Sent =
    | Forget(key: string, target: string)
    | Revise(key: string, target: string, before: string, newValue: Option<string>, reviewedBy: nat)

  /** `Previewed` is the creation of the record with what it shows, `Abandoned` an owner's
      discard of a preparation that left no record. */
  datatype Event =
    | Previewed(text: string) | Abandoned
    | Validated | Admitted | OwnerReleased | OwnerDiscarded | Requested(sent: Sent)

  datatype Erasure = Completed | Partial | HeldBack | Pending
  datatype Phase = Recorded | Processed | Available | ProcessingFailed

  datatype Reply =
    | Unreached
    | Rejected(error: string)
    | Silent
    | Erased(status: Erasure)
    | Repaired(phase: Phase, reason: Option<string>)
    | Native(receipt: Receipt, failure: Option<string>)

  /** What commit finds: the native change readable, its Nexus available, its sources still
      resolving, the preview unexpired, and its closure unchanged. */
  datatype Check = Check(readable: bool, available: bool, sources: bool, unexpired: bool, same: bool)

  predicate Clean(r: Record) {
    r.state.Confirmed? && r.error.None? && (r.kind.Delete? ==> r.before.None?)
  }

  predicate Final(r: Record) {
    Clean(r) || r.state.Failed? || r.state.Blocked? || r.state.Discarded?
  }

  function SettleConfirmed(r: Record): Record {
    if r.kind.Delete? then r.(error := None, before := None, affected := []) else r.(error := None)
  }

  function Finished(r: Record): Record {
    if r.state.Confirmed? then SettleConfirmed(r) else r
  }

  function AfterForget(r: Record, reply: Reply): Record {
    match reply
    case Rejected(error) => r.(state := Failed, error := Some(error))
    case Erased(status) => Finished(
      match status
      case Completed => r.(state := Confirmed, error := None)
      case Partial => r.(state := Confirmed, error := None)
      case HeldBack => r.(state := Blocked, error := Some("legal_hold"))
      case Pending => r.(state := Committing, error := None))
    case _ => r
  }

  function AfterRevise(r: Record, reply: Reply): Record {
    match reply
    case Rejected(error) => r.(state := Failed, error := Some(error))
    case Repaired(phase, reason) => Finished(
      match phase
      case Recorded => r.(state := Committing, error := None)
      case ProcessingFailed => r.(state := Failed, error := reason)
      case _ => r.(state := Confirmed, error := None))
    case _ => r
  }

  const EXPLAINED := {"preview_expired", "revision_conflict", "idempotency_conflict",
                      "memory_change_pending", "unsupported_scope", "unsupported_correction"}

  function AfterNative(r: Record, native: Receipt, error: Option<string>): Record {
    var r' := r.(state := native.state, receipt := Some(native));
    if native.state.Confirmed? then SettleConfirmed(r')
    else if error.None? then r'.(error := None)
    else if !native.state.Prepared? then r'.(error := Some("acceptance_unknown"))
    else r'.(error := Some(if error.value in EXPLAINED then error.value else "preview_needs_review"))
  }

  function OperationKey(r: Record): string { "anda-bot/change/" + r.operation }

  // ---------------------------------------------------------------- the machine

  datatype Pc =
    | Idle
    | Preparing(change: Record)
    | Releasing | Discarding
    | Admitting | ReleasingPreview | Erasing | AskingForget
    | Repairing | AskingRevise
    | AdmittingNative | AskingNative
    | Answered(record: Record, reply: Reply)

  /** `saved` are Brain's answers whose outcome was stored. */
  datatype Machine = Machine(
    record: Option<Record>, native: Option<Receipt>, pc: Pc, events: seq<Event>, saved: seq<Reply>)

  /** An operation has a durable record, the native change it may hold, and the requests it
      sends to Brain. All of prepare, discard and commit run under one gate, so a run is a
      sequence of their effects; an action is one effect, and `Crash` is a process death or an
      early error return between two of them. */
  datatype Action =
    | Prepare(change: Record)
    | Discard
    | Commit(check: Check)
    | Advance(reply: Reply)
    | Crash

  const Start := Machine(None, None, Idle, [], [])

  /** A preview as `prepare` stores it. It and the native preview are of one revision of the
      record, so they show one text. */
  predicate Preview(r: Record) {
    && r.state.Prepared? && r.error.None? && r.before.Some? && (r.kind.Misrecorded? <==> r.receipt.None?)
    && (r.receipt.Some? ==> r.receipt.value.quote == r.before.value)
  }

  predicate In(native: Option<Receipt>, state: State) { native.Some? && native.value.state == state }

  function Released(native: Option<Receipt>): Option<Receipt> {
    if native.None? then None else Some(native.value.(state := Discarded))
  }

  function CommitFrom(m: Machine, r: Record, check: Check): Machine
    requires m.record == Some(r)
  {
    if Final(r) then m
    else if r.kind.Misrecorded? then
      if r.before.None? || (r.state.Prepared? && !(check.unexpired && check.same)) then m
      else if r.state.Prepared? then m.(pc := Repairing, events := m.events + [Validated])
      else m.(pc := Repairing)
    else if !check.readable || m.native.None? then m
    else if m.native.value.state.Prepared? && check.available && !check.sources then m
    else if !r.kind.Delete? || m.native.value.state.Confirmed? then m.(pc := AdmittingNative)
    else if !r.state.Prepared? then m.(pc := ReleasingPreview)
    else if m.native.value.state.Prepared? && check.unexpired && check.same && check.sources then
      m.(pc := Admitting, events := m.events + [Validated])
    else m
  }

  /** The next effect of a discard or commit of `r`. */
  function AdvanceRecord(m: Machine, r: Record, reply: Reply): Machine
    requires m.record == Some(r)
  {
    if m.pc.Releasing? then m.(native := Released(m.native), pc := Discarding, events := m.events + [OwnerReleased])
    else if m.pc.Discarding? then
      m.(record := Some(DiscardRecord(r, m.native)), pc := Idle, events := m.events + [OwnerDiscarded])
    else if m.pc.Admitting? then
      m.(record := Some(r.(state := Committing)), pc := ReleasingPreview, events := m.events + [Admitted])
    else if m.pc.ReleasingPreview? then
      m.(native := if In(m.native, Prepared) then Released(m.native) else m.native, pc := Erasing)
    else if m.pc.Erasing? then m.(record := Some(r.(state := Committing)), pc := AskingForget)
    else if m.pc.AskingForget? then AskForget(m, r, reply)
    else if m.pc.Repairing? then
      m.(record := Some(r.(state := Committing)), pc := AskingRevise,
         events := if r.state.Prepared? then m.events + [Admitted] else m.events)
    else if m.pc.AskingRevise? then AskRevise(m, r, reply)
    else if m.pc.AdmittingNative? then m.(record := Some(r.(state := Committing)), pc := AskingNative)
    else if m.pc.AskingNative? then AskNative(m, r, reply)
    else m
  }

  function DiscardRecord(r: Record, native: Option<Receipt>): Record {
    r.(state := Discarded, before := None, affected := [], newValue := None,
       receipt := if r.receipt.Some? then native else None)
  }

  function AskForget(m: Machine, r: Record, reply: Reply): Machine {
    if reply.Unreached? then m.(pc := Idle) else
    var m' := m.(events := m.events + [Requested(Forget(OperationKey(r), r.target))]);
    if reply.Rejected? || reply.Erased? then m'.(pc := Answered(AfterForget(r, reply), reply)) else m'.(pc := Idle)
  }

  function AskRevise(m: Machine, r: Record, reply: Reply): Machine {
    if reply.Unreached? || r.before.None? then m.(pc := Idle) else
    m.(events := m.events + [Requested(Revise(OperationKey(r), r.target, r.before.value, r.newValue, r.expiresAt))],
       pc := Answered(AfterRevise(r, reply), reply))
  }

  function AskNative(m: Machine, r: Record, reply: Reply): Machine {
    match reply
    case Native(receipt, failure) => m.(native := Some(receipt), pc := Answered(AfterNative(r, receipt, failure), reply))
    case _ => m.(pc := Idle)
  }

  function Created(m: Machine, change: Record): Machine {
    m.(record := Some(change), events := m.events + [Previewed(if change.before.Some? then change.before.value else "")])
  }

  /** The next effect of whatever is running. */
  function AdvanceFrom(m: Machine, reply: Reply): Machine {
    if m.pc.Preparing? then
      // A preview whose sources do not resolve is released again.
      if reply.Rejected? then m.(native := Released(m.native), pc := Idle)
      else Created(m, m.pc.change).(pc := Idle)
    else if m.pc.Answered? then m.(record := Some(m.pc.record), pc := Idle, saved := m.saved + [m.pc.reply])
    else if m.record.Some? then AdvanceRecord(m, m.record.value, reply)
    else m.(pc := Idle)
  }

  function Apply(m: Machine, action: Action): Machine {
    match action
    case Prepare(change) =>
      if !m.pc.Idle? || m.record.Some? || !Preview(change) then m
      else if change.kind.Misrecorded? then Created(m, change)
      // A repeated preparation is answered with the native change there is, of the same revision.
      else if m.native.Some? && m.native.value.quote != change.before.value then m
      else
        var native := if m.native.None? then Some(Receipt(Prepared, change.before.value)) else m.native;
        m.(native := native, pc := Preparing(change.(receipt := native)))
    case Discard =>
      if !m.pc.Idle? then m
      else if m.record.None? then
        if m.native.None? then m else m.(native := Released(m.native), events := m.events + [Abandoned])
      else if !m.record.value.state.Prepared? then m
      else m.(pc := if m.record.value.receipt.Some? then Releasing else Discarding)
    case Commit(check) =>
      if !m.pc.Idle? || m.record.None? then m else CommitFrom(m, m.record.value, check)
    case Advance(reply) => AdvanceFrom(m, reply)
    case Crash => m.(pc := Idle)
  }

  function Exec(actions: seq<Action>): Machine {
    if actions == [] then Start
    else Apply(Exec(actions[..|actions| - 1]), actions[|actions| - 1])
  }

  lemma ExecStep(actions: seq<Action>, action: Action)
    ensures Exec(actions + [action]) == Apply(Exec(actions), action)
  {
    assert (actions + [action])[..|actions|] == actions;
  }

  // ---------------------------------------------------------------- invariants

  predicate ByOwner(event: Event) { event.OwnerReleased? || event.OwnerDiscarded? }

  ghost predicate Dropped(events: seq<Event>) { exists i :: 0 <= i < |events| && ByOwner(events[i]) }

  ghost predicate Gone(events: seq<Event>) { exists i :: 0 <= i < |events| && events[i].Abandoned? }

  ghost predicate Asked(events: seq<Event>) { exists i :: 0 <= i < |events| && events[i].Requested? }

  ghost predicate AdmittedAt(events: seq<Event>, upTo: int) {
    exists i, k :: 0 <= i < k < upTo && k < |events| && events[i].Validated? && events[k].Admitted?
  }

  ghost predicate Shown(events: seq<Event>, upTo: int) {
    exists i :: 0 <= i < upTo && i < |events| && events[i].Previewed?
  }

  /** Every request follows a validated admission, and no request follows the owner's discard. A
      preparation is abandoned only before there is a record to ask about. */
  ghost predicate Ordered(events: seq<Event>) {
    && (forall i, j :: 0 <= i < j < |events| && events[i].Previewed? ==> !events[j].Abandoned?)
    && (forall j :: 0 <= j < |events| && events[j].Requested? ==> Shown(events, j))
    && (forall j :: 0 <= j < |events| && events[j].Requested? ==> AdmittedAt(events, j))
    && (forall i, j :: 0 <= i < j < |events| && ByOwner(events[i]) ==> !events[j].Requested?)
  }

  function RequestOf(r: Record): Sent {
    if r.kind.Delete? then Forget(OperationKey(r), r.target)
    else Revise(OperationKey(r), r.target, if r.before.Some? then r.before.value else "", r.newValue, r.expiresAt)
  }

  ghost predicate RecordFits(r: Record, native: Option<Receipt>) {
    && (r.kind.Misrecorded? <==> r.receipt.None?)
    && (r.state.Confirmed? ==> Clean(r) && (r.kind.Delete? ==> r.affected == []))
    && (r.kind.Misrecorded? && !r.state.Discarded? ==> r.before.Some?)
    && (r.kind.Delete? ==> In(native, Prepared) || In(native, Discarded))
    && (!r.kind.Misrecorded? ==> native.Some?)
  }

  /** Once a request may have been sent, the record has left `prepared` for good. */
  ghost predicate EventsFit(r: Record, native: Option<Receipt>, events: seq<Event>) {
    && Ordered(events)
    && (forall i :: 0 <= i < |events| && events[i].Requested? ==> events[i].sent == RequestOf(r))
    && (r.kind.Other? ==> !Asked(events))
    && (Asked(events) ==> !r.state.Prepared? && !r.state.Discarded?)
    && (!r.kind.Other? && !r.state.Prepared? && !r.state.Discarded? ==> AdmittedAt(events, |events|))
    && Shown(events, |events|)
    && (forall i :: 0 <= i < |events| && events[i].Previewed? && r.receipt.Some? && !r.kind.Other? && !r.state.Discarded? ==>
          events[i].text == r.receipt.value.quote)
    && (r.kind.Delete? && Gone(events) ==> In(native, Discarded) && (r.state.Prepared? || r.state.Discarded?))
    && (!r.kind.Other? && Dropped(events) ==>
          r.state.Discarded? || (r.kind.Delete? && r.state.Prepared? && In(native, Discarded)))
  }

  ghost predicate PcFits(m: Machine)
    requires m.record.Some?
  {
    var r := m.record.value;
    match m.pc
    case Idle => true
    case Preparing(_) => false
    case Releasing => r.state.Prepared? && !r.kind.Misrecorded?
    case Discarding => r.state.Prepared? && (r.kind.Delete? ==> In(m.native, Discarded))
    case Admitting =>
      r.kind.Delete? && r.state.Prepared? && !Dropped(m.events) && !Gone(m.events) && |m.events| > 0 && m.events[|m.events| - 1].Validated?
    case ReleasingPreview => r.kind.Delete? && !r.state.Prepared? && !Final(r)
    case Erasing => r.kind.Delete? && !r.state.Prepared? && !Final(r)
    case AskingForget => r.kind.Delete? && r.state.Committing?
    case Repairing =>
      r.kind.Misrecorded? && !Final(r)
      && (r.state.Prepared? ==> !Dropped(m.events) && |m.events| > 0 && m.events[|m.events| - 1].Validated?)
    case AskingRevise => r.kind.Misrecorded? && r.state.Committing?
    case AdmittingNative => r.kind.Other? && !Final(r)
    case AskingNative => r.kind.Other? && r.state.Committing?
    case Answered(r', _) =>
      && r.state.Committing?
      && r'.kind == r.kind && RecordFits(r', m.native) && EventsFit(r', m.native, m.events)
  }

  ghost predicate Inv(m: Machine) {
    match m.record
    case None =>
      && (forall i :: 0 <= i < |m.events| ==> m.events[i].Abandoned?)
      && (m.native.None? || In(m.native, Prepared) || In(m.native, Discarded))
      && (m.events != [] ==> In(m.native, Discarded))
      && (m.pc.Idle?
          || (m.pc.Preparing? && Preview(m.pc.change) && !m.pc.change.kind.Misrecorded? && m.pc.change.receipt == m.native))
    case Some(r) => RecordFits(r, m.native) && EventsFit(r, m.native, m.events) && PcFits(m)
  }

  lemma Appended(events: seq<Event>, event: Event)
    ensures Dropped(events + [event]) <==> Dropped(events) || ByOwner(event)
    ensures Asked(events + [event]) <==> Asked(events) || event.Requested?
    ensures Gone(events + [event]) <==> Gone(events) || event.Abandoned?
    ensures Shown(events + [event], |events| + 1) <==> Shown(events, |events|) || event.Previewed?
    ensures forall j :: AdmittedAt(events, j) ==> AdmittedAt(events + [event], j)
    ensures AdmittedAt(events, |events|) ==> AdmittedAt(events + [event], |events| + 1)
    ensures event.Admitted? && |events| > 0 && events[|events| - 1].Validated? ==> AdmittedAt(events + [event], |events| + 1)
    ensures Ordered(events) && (event.Abandoned? ==> !Shown(events, |events|))
            && (event.Requested? ==> Shown(events, |events|) && AdmittedAt(events, |events|) && !Dropped(events)) ==>
              Ordered(events + [event])
  {
    var more := events + [event];
    assert forall i :: 0 <= i < |events| ==> more[i] == events[i];
    assert more[|events|] == event;
    FoundOn(events, event);
    forall j | AdmittedAt(events, j)
      ensures AdmittedAt(more, j) && AdmittedAt(more, j + 1)
    {
      var i, k :| 0 <= i < k < j && k < |events| && events[i].Validated? && events[k].Admitted?;
      assert more[i].Validated? && more[k].Admitted?;
    }
    if event.Admitted? && |events| > 0 && events[|events| - 1].Validated? {
      assert more[|events| - 1].Validated? && more[|events|].Admitted?;
    }
    forall j | Shown(events, j)
      ensures Shown(more, j)
    {
      var i :| 0 <= i < j && i < |events| && events[i].Previewed?;
      assert more[i].Previewed?;
    }
  }

  lemma FoundOn(events: seq<Event>, event: Event)
    ensures Dropped(events) ==> Dropped(events + [event])
    ensures Asked(events) ==> Asked(events + [event])
    ensures Gone(events) ==> Gone(events + [event])
    ensures Shown(events, |events|) ==> Shown(events + [event], |events| + 1)
  {
    var more := events + [event];
    assert forall i :: 0 <= i < |events| ==> more[i] == events[i];
    if Dropped(events) {
      var i :| 0 <= i < |events| && ByOwner(events[i]);
      assert ByOwner(more[i]);
    }
    if Asked(events) {
      var i :| 0 <= i < |events| && events[i].Requested?;
      assert more[i].Requested?;
    }
    if Gone(events) {
      var i :| 0 <= i < |events| && events[i].Abandoned?;
      assert more[i].Abandoned?;
    }
    if Shown(events, |events|) {
      var i :| 0 <= i < |events| && events[i].Previewed?;
      assert more[i].Previewed?;
    }
  }

  lemma RequestFits(r: Record, native: Option<Receipt>, events: seq<Event>)
    requires EventsFit(r, native, events) && r.state.Committing? && !r.kind.Other?
    ensures EventsFit(r, native, events + [Requested(RequestOf(r))])
  {
    Appended(events, Requested(RequestOf(r)));
  }

  /** An outcome changes neither the request nor its history. */
  lemma OutcomeFits(r: Record, r': Record, native: Option<Receipt>, events: seq<Event>)
    requires EventsFit(r, native, events) && r.state.Committing? && !r.kind.Other?
    requires r'.kind == r.kind && RequestOf(r') == RequestOf(r) && r'.receipt == r.receipt
    requires !r'.state.Prepared? && !r'.state.Discarded?
    ensures EventsFit(r', native, events)
  {
  }

  lemma AskForgetKeeps(m: Machine, reply: Reply)
    requires Inv(m) && m.record.Some? && m.pc.AskingForget?
    ensures Inv(AskForget(m, m.record.value, reply))
  {
    var r := m.record.value;
    var events := m.events + [Requested(RequestOf(r))];
    RequestFits(r, m.native, m.events);
    OutcomeFits(r, AfterForget(r, reply), m.native, events);
  }

  lemma AskReviseKeeps(m: Machine, reply: Reply)
    requires Inv(m) && m.record.Some? && m.pc.AskingRevise?
    ensures Inv(AskRevise(m, m.record.value, reply))
  {
    var r := m.record.value;
    var events := m.events + [Requested(RequestOf(r))];
    RequestFits(r, m.native, m.events);
    OutcomeFits(r, AfterRevise(r, reply), m.native, events);
  }

  lemma AskNativeKeeps(m: Machine, reply: Reply)
    requires Inv(m) && m.record.Some? && m.pc.AskingNative?
    ensures Inv(AskNative(m, m.record.value, reply))
  {
  }

  lemma DiscardKeeps(m: Machine, reply: Reply)
    requires Inv(m) && m.record.Some? && (m.pc.Releasing? || m.pc.Discarding?)
    ensures Inv(AdvanceRecord(m, m.record.value, reply))
  {
    Appended(m.events, if m.pc.Releasing? then OwnerReleased else OwnerDiscarded);
  }

  lemma AdmitKeeps(m: Machine, reply: Reply)
    requires Inv(m) && m.record.Some? && (m.pc.Admitting? || m.pc.Repairing?)
    ensures Inv(AdvanceRecord(m, m.record.value, reply))
  {
    Appended(m.events, Admitted);
  }

  lemma EraseKeeps(m: Machine, reply: Reply)
    requires Inv(m) && m.record.Some? && (m.pc.ReleasingPreview? || m.pc.Erasing? || m.pc.AdmittingNative?)
    ensures Inv(AdvanceRecord(m, m.record.value, reply))
  {
  }

  lemma AdvanceKeeps(m: Machine, reply: Reply)
    requires Inv(m)
    ensures Inv(AdvanceFrom(m, reply))
  {
    if m.record.None? {
      if m.pc.Preparing? {
        CreateKeeps(m, m.pc.change);
      }
    } else {
      match m.pc
      case Idle =>
      case Preparing(_) =>
      case Answered(_, _) =>
      case Releasing => DiscardKeeps(m, reply);
      case Discarding => DiscardKeeps(m, reply);
      case Admitting => AdmitKeeps(m, reply);
      case Repairing => AdmitKeeps(m, reply);
      case ReleasingPreview => EraseKeeps(m, reply);
      case Erasing => EraseKeeps(m, reply);
      case AdmittingNative => EraseKeeps(m, reply);
      case AskingForget => AskForgetKeeps(m, reply);
      case AskingRevise => AskReviseKeeps(m, reply);
      case AskingNative => AskNativeKeeps(m, reply);
    }
  }

  lemma CommitKeeps(m: Machine, check: Check)
    requires Inv(m)
    ensures Inv(Apply(m, Commit(check)))
  {
    Appended(m.events, Validated);
  }

  lemma CreateKeeps(m: Machine, change: Record)
    requires Inv(m) && m.record.None? && Preview(change)
    requires change.kind.Misrecorded? || (m.native.Some? && change.receipt == m.native)
    ensures Inv(Created(m, change).(pc := Idle))
  {
    Appended(m.events, Previewed(change.before.value));
  }

  lemma AbandonKeeps(m: Machine)
    requires Inv(m) && m.pc.Idle? && m.record.None?
    ensures Inv(Apply(m, Discard))
  {
  }

  lemma {:induction false} InvHolds(actions: seq<Action>)
    ensures Inv(Exec(actions))
  {
    if actions != [] {
      var m := Exec(actions[..|actions| - 1]);
      InvHolds(actions[..|actions| - 1]);
      match actions[|actions| - 1]
      case Prepare(change) => if m.pc.Idle? && m.record.None? && Preview(change) && change.kind.Misrecorded? { CreateKeeps(m, change); }
      case Discard => if m.pc.Idle? && m.record.None? { AbandonKeeps(m); }
      case Commit(check) => CommitKeeps(m, check);
      case Advance(reply) => AdvanceKeeps(m, reply);
      case Crash =>
    }
  }

  // ---------------------------------------------------------------- theorems over every run

  /** A request is sent only for an operation whose preview was revalidated before
      `committing` became durable. */
  lemma {:induction false} RequestsAreAdmitted(actions: seq<Action>, j: nat)
    requires j < |Exec(actions).events| && Exec(actions).events[j].Requested?
    ensures AdmittedAt(Exec(actions).events, j)
  {
    InvHolds(actions);
  }

  /** No request follows the owner's discard: none at all one of the stored change, even
      interrupted after the native release, and no `forget` one that released a preparation
      before it left a record. A `revise` may follow the latter, for a preview recorded since. */
  lemma {:induction false} NothingFollowsTheDiscard(actions: seq<Action>, i: nat, j: nat)
    requires i < j < |Exec(actions).events| && Exec(actions).events[j].Requested?
    ensures !ByOwner(Exec(actions).events[i])
    ensures Exec(actions).events[i].Abandoned? ==>
              Exec(actions).events[j].sent.Revise? && exists k :: i < k < j && Exec(actions).events[k].Previewed?
  {
    InvHolds(actions);
    var m := Exec(actions);
    if m.events[i].Abandoned? {
      assert Gone(m.events) && Asked(m.events) && m.record.Some?;
      var k :| 0 <= k < j && m.events[k].Previewed?;
    }
  }

  lemma AbandonedPreparation(deletion: Record) returns (actions: seq<Action>)
    requires Preview(deletion) && deletion.kind.Delete?
    ensures Exec(actions) == Machine(None, Some(Receipt(Discarded, deletion.before.value)), Idle, [Abandoned], [])
  {
    actions := [];
    ExecStep(actions, Prepare(deletion));
    actions := actions + [Prepare(deletion)];
    ExecStep(actions, Crash);
    actions := actions + [Crash];
    ExecStep(actions, Discard);
    actions := actions + [Discard];
  }

  /** The exception is real: an operation whose interrupted deletion was discarded is prepared
      again as a misrecording, and that is requested. */
  lemma ReusedOperationIsRequested(deletion: Record, report: Record)
    requires Preview(deletion) && deletion.kind.Delete? && Preview(report) && report.kind.Misrecorded?
    ensures exists actions :: Abandoned in Exec(actions).events && Asked(Exec(actions).events)
  {
    var actions := AbandonedPreparation(deletion);
    ExecStep(actions, Prepare(report));
    actions := actions + [Prepare(report)];
    assert Exec(actions).record == Some(report) && Exec(actions).events == [Abandoned, Previewed(report.before.value)];
    ExecStep(actions, Commit(Check(true, true, true, true, true)));
    actions := actions + [Commit(Check(true, true, true, true, true))];
    assert Exec(actions).pc.Repairing?;
    ExecStep(actions, Advance(Silent));
    actions := actions + [Advance(Silent)];
    ExecStep(actions, Advance(Silent));
    actions := actions + [Advance(Silent)];
    var events := Exec(actions).events;
    assert events[0].Abandoned? && events[|events| - 1].Requested?;
  }

  /** Every resend carries one key and one payload. */
  lemma {:induction false} ResendsAreEqual(actions: seq<Action>, i: nat, j: nat)
    requires i < |Exec(actions).events| && j < |Exec(actions).events|
    requires Exec(actions).events[i].Requested? && Exec(actions).events[j].Requested?
    ensures Exec(actions).events[i] == Exec(actions).events[j]
  {
    InvHolds(actions);
  }

  /** Discarded, failed, blocked and settled changes never change again. */
  lemma {:induction false} FinalIsForever(actions: seq<Action>, more: seq<Action>)
    requires Exec(actions).record.Some? && Final(Exec(actions).record.value)
    ensures Exec(actions + more) == Exec(actions)
  {
    if more == [] {
      assert actions + more == actions;
    } else {
      FinalIsForever(actions, more[..|more| - 1]);
      assert actions + more == (actions + more[..|more| - 1]) + [more[|more| - 1]];
      ExecStep(actions + more[..|more| - 1], more[|more| - 1]);
      InvHolds(actions);
    }
  }

  /** A confirmed change is settled: no error, and a deletion quotes nothing it deleted. */
  lemma {:induction false} ConfirmedIsSettled(actions: seq<Action>)
    requires Exec(actions).record.Some? && Exec(actions).record.value.state.Confirmed?
    ensures var r := Exec(actions).record.value;
      r.error.None? && (r.kind.Delete? ==> r.before.None? && r.affected == [])
  {
    InvHolds(actions);
  }

  /** A deletion never goes through the native product commit. */
  lemma {:induction false} DeletionIsNeverNative(actions: seq<Action>)
    requires Exec(actions).record.Some? && Exec(actions).record.value.kind.Delete?
    ensures !Exec(actions).pc.AdmittingNative? && !Exec(actions).pc.AskingNative?
    ensures !In(Exec(actions).native, Confirmed)
  {
    InvHolds(actions);
  }

  // ---------------------------------------------------------------- uninterrupted calls

  function Rank(pc: Pc): nat {
    match pc
    case Idle => 0
    case Preparing(_) => 1
    case Answered(_, _) => 1
    case Discarding => 1
    case Releasing => 2
    case AskingForget => 2
    case AskingRevise => 2
    case AskingNative => 2
    case Erasing => 3
    case Repairing => 3
    case AdmittingNative => 3
    case ReleasingPreview => 4
    case Admitting => 5
  }

  lemma RankFalls(m: Machine, reply: Reply)
    ensures m.pc.Idle? || Rank(AdvanceFrom(m, reply).pc) < Rank(m.pc)
  {
  }

  /** Lets what is running end, each of its requests answered by `reply`. */
  function RunOut(m: Machine, reply: Reply): (m': Machine)
    ensures m'.pc.Idle?
    decreases Rank(m.pc)
  {
    RankFalls(m, reply);
    if m.pc.Idle? then m else RunOut(AdvanceFrom(m, reply), reply)
  }

  /** What a commit needs to find to resume an admitted deletion: its sources count only while
      the native preview was not released and its Nexus is available. */
  predicate Resumes(native: Option<Receipt>, check: Check) {
    check.readable && (In(native, Prepared) && check.available ==> check.sources)
  }

  /** One recovery completes a deletion interrupted anywhere after its admission, exactly when
      it can resume it. */
  lemma {:induction false} RecoveryErases(actions: seq<Action>, check: Check)
    requires var m := Exec(actions);
      m.pc.Idle? && m.record.Some? && m.record.value.kind.Delete? && m.record.value.state.Committing?
    ensures var m' := RunOut(Apply(Exec(actions), Commit(check)), Erased(Completed));
      (m'.record.Some? && Clean(m'.record.value) && In(m'.native, Discarded)) <==> Resumes(Exec(actions).native, check)
  {
    InvHolds(actions);
    var m := Exec(actions);
    var m0 := Apply(m, Commit(check));
    if Resumes(m.native, check) {
      var m1 := AdvanceFrom(m0, Erased(Completed));
      var m2 := AdvanceFrom(m1, Erased(Completed));
      var m3 := AdvanceFrom(m2, Erased(Completed));
      var m4 := AdvanceFrom(m3, Erased(Completed));
      assert m0.pc.ReleasingPreview? && m1.pc.Erasing? && m2.pc.AskingForget? && m3.pc.Answered? && m4.pc.Idle?;
      assert RunOut(m0, Erased(Completed)) == RunOut(m1, Erased(Completed)) == RunOut(m2, Erased(Completed));
      assert RunOut(m2, Erased(Completed)) == RunOut(m3, Erased(Completed)) == m4;
    } else {
      assert m0 == m;
    }
  }

  /** No commit among these could resume the deletion. */
  predicate Refused(native: Option<Receipt>, more: seq<Action>) {
    forall k :: 0 <= k < |more| && more[k].Commit? ==> !Resumes(native, more[k].check)
  }

  /** Until a recovery can resume it, nothing changes an admitted deletion: not a recovery, nor
      a discard, nor a new preparation. */
  lemma {:induction false} RefusedStaysAdmitted(actions: seq<Action>, more: seq<Action>)
    requires var m := Exec(actions);
      m.pc.Idle? && m.record.Some? && m.record.value.kind.Delete? && m.record.value.state.Committing?
    requires Refused(Exec(actions).native, more)
    ensures Exec(actions + more) == Exec(actions)
  {
    if more == [] {
      assert actions + more == actions;
    } else {
      RefusedStaysAdmitted(actions, more[..|more| - 1]);
      assert actions + more == (actions + more[..|more| - 1]) + [more[|more| - 1]];
      ExecStep(actions + more[..|more| - 1], more[|more| - 1]);
      InvHolds(actions);
    }
  }

  /** A run that is refused so: the process dies once the admission is durable and before the
      native preview is released, so recovery still looks for the sources. */
  lemma AdmittedBeforeTheRelease(change: Record) returns (actions: seq<Action>)
    requires Preview(change) && change.kind.Delete?
    ensures var m := Exec(actions);
      && m.pc.Idle? && m.record == Some(change.(state := Committing, receipt := m.native)) && In(m.native, Prepared)
      && m.events == [Previewed(change.before.value), Validated, Admitted]
      && !Resumes(m.native, Check(true, true, false, true, true)) && Resumes(m.native, Check(true, true, true, true, true))
  {
    var check := Check(true, true, true, true, true);
    actions := [];
    ExecStep(actions, Prepare(change));
    actions := actions + [Prepare(change)];
    ExecStep(actions, Advance(Silent));
    actions := actions + [Advance(Silent)];
    ExecStep(actions, Commit(check));
    actions := actions + [Commit(check)];
    ExecStep(actions, Advance(Silent));
    actions := actions + [Advance(Silent)];
    ExecStep(actions, Crash);
    actions := actions + [Crash];
  }

  /** In every run the record of a settled deletion, whose own preview is cleared, still quotes
      in its native receipt exactly the text that the preview showed. */
  lemma {:induction false} SettledDeletionKeepsItsText(actions: seq<Action>)
    requires var r := Exec(actions).record; r.Some? && r.value.kind.Delete? && Clean(r.value)
    ensures var r, events := Exec(actions).record.value, Exec(actions).events;
      && r.before.None? && r.affected == [] && r.receipt.Some?
      && forall text :: Previewed(text) in events <==> text == r.receipt.value.quote
  {
    InvHolds(actions);
  }

  /** Deletions do settle so. */
  lemma DeletionSettles(change: Record) returns (actions: seq<Action>)
    requires Preview(change) && change.kind.Delete?
    ensures var r := Exec(actions).record;
      r.Some? && Clean(r.value) && r.value.kind.Delete? && Previewed(change.before.value) in Exec(actions).events
  {
    actions := AdmittedBeforeTheRelease(change);
    var check, done := Check(true, true, true, true, true), Erased(Completed);
    RecoveryErases(actions, check);
    assert Exec(actions).events[0] == Previewed(change.before.value);
    ExecStep(actions, Commit(check));
    actions := actions + [Commit(check)];
    assert Exec(actions).events[0] == Previewed(change.before.value);
    actions := FinishesBy(actions, done);
    assert Exec(actions).events[0] == Previewed(change.before.value);
  }

  lemma KindStays(m: Machine, reply: Reply)
    requires Inv(m) && m.record.Some?
    ensures var m' := AdvanceFrom(m, reply);
      m'.record.Some? && m'.record.value.kind == m.record.value.kind && m.events <= m'.events
  {
    hide EventsFit, RecordFits;
  }

  /** Running out is a run. */
  lemma {:induction false} FinishesBy(start: seq<Action>, reply: Reply) returns (actions: seq<Action>)
    requires Exec(start).record.Some?
    ensures Exec(actions) == RunOut(Exec(start), reply) && Exec(start).events <= Exec(actions).events
    ensures Exec(actions).record.Some? && Exec(actions).record.value.kind == Exec(start).record.value.kind
    decreases Rank(Exec(start).pc)
  {
    hide AdvanceFrom, Inv;
    actions := start;
    if !Exec(start).pc.Idle? {
      InvHolds(start);
      KindStays(Exec(start), reply);
      RankFalls(Exec(start), reply);
      ExecStep(start, Advance(reply));
      actions := FinishesBy(start + [Advance(reply)], reply);
    }
  }

  lemma {:induction false} StoredRecord(actions: seq<Action>, r: Record)
    requires Exec(actions).record == Some(r)
    ensures r.kind.Misrecorded? <==> r.receipt.None?
    ensures r.kind.Misrecorded? && !r.state.Discarded? ==> r.before.Some?
    ensures r.state.Confirmed? ==> Clean(r)
  {
    InvHolds(actions);
  }

  // ---------------------------------------------------------------- what each answer leaves

  predicate Erases(reply: Reply) { reply.Erased? && (reply.status.Completed? || reply.status.Partial?) }

  predicate Corrects(reply: Reply) { reply.Repaired? && (reply.phase.Processed? || reply.phase.Available?) }

  predicate FailsToCorrect(reply: Reply, error: Option<string>) {
    (reply.Rejected? && error == Some(reply.error)) || (reply.Repaired? && reply.phase.ProcessingFailed? && error == reply.reason)
  }

  /** What a stored deletion says of the answers stored for it. */
  ghost predicate ErasureOutcome(r: Record, saved: seq<Reply>) {
    && (r.state.Confirmed? <==> exists reply :: reply in saved && Erases(reply))
    && (r.state.Blocked? <==> Erased(HeldBack) in saved)
    && (r.state.Blocked? ==> r.error == Some("legal_hold"))
    && (r.state.Failed? <==> exists reply :: reply in saved && reply.Rejected?)
    && (r.state.Failed? ==> r.error.Some? && Rejected(r.error.value) in saved)
    && (saved != [] && !r.state.Confirmed? && !r.state.Blocked? && !r.state.Failed? ==> r.state.Committing? && r.error.None?)
  }

  /** What a stored correction says of them. */
  ghost predicate RepairOutcome(r: Record, saved: seq<Reply>) {
    && !r.state.Blocked?
    && (r.state.Confirmed? <==> exists reply :: reply in saved && Corrects(reply))
    && (r.state.Failed? <==> exists reply :: reply in saved && (reply.Rejected? || (reply.Repaired? && reply.phase.ProcessingFailed?)))
    && (r.state.Failed? ==> exists reply :: reply in saved && FailsToCorrect(reply, r.error))
    && (saved != [] && !r.state.Confirmed? && !r.state.Failed? ==> r.state.Committing?)
  }

  /** What the last answer of the native change left: its state and, unless it is confirmed or
      nothing failed, why it is not. */
  predicate NativeOutcome(r: Record, receipt: Receipt, failure: Option<string>) {
    && r.state == receipt.state && r.receipt == Some(receipt)
    && (receipt.state.Confirmed? || failure.None? ==> r.error.None?)
    && (!receipt.state.Confirmed? && !receipt.state.Prepared? && failure.Some? ==> r.error == Some("acceptance_unknown"))
    && (receipt.state.Prepared? && failure.Some? ==>
          r.error == Some(if failure.value in EXPLAINED then failure.value else "preview_needs_review"))
  }

  /** What a reply, once stored, leaves of a change. */
  predicate ShowsOutcome(r: Record, reply: Reply) {
    match r.kind
    case Delete =>
      (match reply
       case Erased(Completed) => r.state.Confirmed? && r.error.None? && r.before.None? && r.affected == []
       case Erased(Partial) => r.state.Confirmed? && r.error.None? && r.before.None? && r.affected == []
       case Erased(HeldBack) => r.state.Blocked? && r.error == Some("legal_hold")
       case Erased(Pending) => r.state.Committing? && r.error.None?
       case Rejected(error) => r.state.Failed? && r.error == Some(error)
       case _ => false)
    case Misrecorded =>
      (match reply
       case Repaired(Recorded, _) => r.state.Committing? && r.error.None?
       case Repaired(ProcessingFailed, reason) => r.state.Failed? && r.error == reason
       case Repaired(_, _) => r.state.Confirmed? && r.error.None?
       case Rejected(error) => r.state.Failed? && r.error == Some(error)
       case Unreached => false
       case _ => r.state.Committing?)
    case Other => reply.Native? && NativeOutcome(r, reply.receipt, reply.failure)
  }

  ghost predicate Outcomes(r: Record, saved: seq<Reply>) {
    match r.kind
    case Delete => ErasureOutcome(r, saved)
    case Misrecorded => RepairOutcome(r, saved)
    case Other => forall reply :: reply in saved ==> reply.Native?
  }

  ghost predicate OutcomesFit(m: Machine) {
    && (m.record.None? ==> m.saved == [])
    && (m.record.Some? ==> Outcomes(m.record.value, m.saved))
    && (m.pc.Answered? && m.record.Some? ==>
          m.record.value.state.Committing? && m.pc.record.kind == m.record.value.kind
          && ShowsOutcome(m.pc.record, m.pc.reply))
  }

  /** One more answer, to a change that had none that ends it. */
  lemma OutcomeAdded(r: Record, saved: seq<Reply>, r': Record, reply: Reply)
    requires Outcomes(r, saved) && r.state.Committing? && r'.kind == r.kind && ShowsOutcome(r', reply)
    ensures Outcomes(r', saved + [reply])
  {
    var more := saved + [reply];
    assert forall x :: x in more <==> x in saved || x == reply;
  }

  lemma AnswerShows(m: Machine, reply: Reply)
    requires m.record.Some? && (m.pc.AskingForget? || m.pc.AskingRevise? || m.pc.AskingNative?)
    requires m.record.value.state.Committing? && Inv(m)
    ensures var m' := AdvanceFrom(m, reply);
      m'.record == m.record && m'.saved == m.saved
      && (m'.pc.Answered? ==> m'.pc.reply == reply && m'.pc.record.kind == m.record.value.kind && ShowsOutcome(m'.pc.record, reply))
      && (m'.pc.Answered? <==>
            if m.pc.AskingForget? then reply.Rejected? || reply.Erased?
            else if m.pc.AskingRevise? then !reply.Unreached?
            else reply.Native?)
  {
  }

  lemma OutcomesKept(r: Record, r': Record, saved: seq<Reply>)
    requires Outcomes(r, saved) && r'.kind == r.kind && r'.error == r.error && !Final(r) && !r.state.Confirmed?
    requires r'.state.Committing? || (r'.state.Discarded? && r.state.Prepared?)
    ensures Outcomes(r', saved)
  {
  }

  lemma OtherwiseSaved(m: Machine, reply: Reply)
    requires Inv(m) && OutcomesFit(m) && m.record.Some?
    requires !m.pc.AskingForget? && !m.pc.AskingRevise? && !m.pc.AskingNative? && !m.pc.Answered?
    ensures OutcomesFit(AdvanceFrom(m, reply))
  {
    hide Outcomes, EventsFit;
    var m' := AdvanceFrom(m, reply);
    if m'.record != m.record {
      OutcomesKept(m.record.value, m'.record.value, m.saved);
    }
  }

  lemma OutcomesStep(m: Machine, reply: Reply)
    requires Inv(m) && OutcomesFit(m) && m.record.Some?
    ensures OutcomesFit(AdvanceFrom(m, reply))
  {
    hide Outcomes, ShowsOutcome, EventsFit, RecordFits;
    if m.pc.AskingForget? || m.pc.AskingRevise? || m.pc.AskingNative? {
      AnswerShows(m, reply);
    } else if m.pc.Answered? {
      OutcomeAdded(m.record.value, m.saved, m.pc.record, m.pc.reply);
    } else {
      OtherwiseSaved(m, reply);
    }
  }

  lemma {:induction false} OutcomesHold(actions: seq<Action>)
    ensures OutcomesFit(Exec(actions))
  {
    if actions != [] {
      var m, action := Exec(actions[..|actions| - 1]), actions[|actions| - 1];
      OutcomesHold(actions[..|actions| - 1]);
      InvHolds(actions[..|actions| - 1]);
      hide ShowsOutcome, EventsFit, RecordFits;
      if action.Advance? && m.record.Some? {
        OutcomesStep(m, action.reply);
      }
    }
  }

  /** In every run the state of a stored change is what Brain's stored answers say: a deletion
      is confirmed exactly when it was answered as completed or partial, blocked exactly when
      it was held back, failed exactly when it was rejected, and otherwise still to be
      answered; a correction likewise. */
  lemma {:induction false} StateIsTheAnswers(actions: seq<Action>)
    requires Exec(actions).record.Some?
    ensures Outcomes(Exec(actions).record.value, Exec(actions).saved)
  {
    OutcomesHold(actions);
  }

  lemma EventsExtend(m: Machine, action: Action)
    ensures m.events <= Apply(m, action).events
  {
    if action.Commit? {
      assert action.Commit?;
    }
  }

  /** An answer is stored only for a request that was sent. */
  lemma {:induction false} AnswersWereRequested(actions: seq<Action>)
    ensures var m := Exec(actions);
      m.record.Some? && !m.record.value.kind.Other? && (m.saved != [] || m.pc.Answered?) ==>
        exists i :: 0 <= i < |m.events| && m.events[i].Requested?
  {
    if actions != [] {
      var m, action := Exec(actions[..|actions| - 1]), actions[|actions| - 1];
      AnswersWereRequested(actions[..|actions| - 1]);
      InvHolds(actions[..|actions| - 1]);
      OutcomesHold(actions[..|actions| - 1]);
      hide EventsFit, RecordFits, Outcomes, ShowsOutcome;
      var m' := Apply(m, action);
      EventsExtend(m, action);
      if m.saved != [] || m.pc.Answered? {
        assert forall i :: 0 <= i < |m.events| ==> m'.events[i] == m.events[i];
      } else if m'.pc.Answered? {
        assert m'.events != [];
        assert m'.record.value.kind.Other? || m'.events[|m'.events| - 1].Requested?;
      }
    }
  }

  /** Whether a call that stands at `pc` gets to store its reply. */
  predicate Stores(pc: Pc, reply: Reply) {
    match pc
    case Admitting => reply.Rejected? || reply.Erased?
    case ReleasingPreview => reply.Rejected? || reply.Erased?
    case Erasing => reply.Rejected? || reply.Erased?
    case AskingForget => reply.Rejected? || reply.Erased?
    case Repairing => !reply.Unreached?
    case AskingRevise => !reply.Unreached?
    case AdmittingNative => reply.Native?
    case AskingNative => reply.Native?
    case Answered(_, _) => true
    case _ => false
  }

  ghost predicate RanOut(m: Machine, m': Machine, reply: Reply) {
    && m.record.Some? && m'.record.Some? && m'.record.value.kind == m.record.value.kind
    && (if Stores(m.pc, reply) then m'.saved == m.saved + [reply] && ShowsOutcome(m'.record.value, reply)
        else m'.saved == m.saved)
  }

  lemma {:induction false} RunOutStores(m: Machine, reply: Reply)
    requires Inv(m) && OutcomesFit(m) && m.record.Some? && (m.pc.Answered? ==> m.pc.reply == reply)
    ensures RanOut(m, RunOut(m, reply), reply)
    decreases Rank(m.pc)
  {
    hide Outcomes, ShowsOutcome, EventsFit, RecordFits;
    if !m.pc.Idle? {
      var m' := AdvanceFrom(m, reply);
      RankFalls(m, reply);
      AdvanceKeeps(m, reply);
      OutcomesStep(m, reply);
      KindStays(m, reply);
      StoresOn(m, reply);
      RunOutStores(m', reply);
    }
  }

  lemma {:induction false} RunStores(actions: seq<Action>, reply: Reply)
    requires Exec(actions).record.Some? && !Exec(actions).pc.Answered?
    ensures RanOut(Exec(actions), RunOut(Exec(actions), reply), reply)
  {
    InvHolds(actions);
    OutcomesHold(actions);
    RunOutStores(Exec(actions), reply);
  }

  lemma StoresOn(m: Machine, reply: Reply)
    requires Inv(m) && OutcomesFit(m) && m.record.Some? && !m.pc.Idle? && (m.pc.Answered? ==> m.pc.reply == reply)
    ensures var m' := AdvanceFrom(m, reply);
      && (m'.pc.Answered? ==> m'.pc.reply == reply)
      && (!m.pc.Answered? ==> m'.saved == m.saved && (Stores(m'.pc, reply) <==> Stores(m.pc, reply)))
      && (m.pc.Answered? ==> m'.pc.Idle? && m'.saved == m.saved + [reply] && m'.record.Some? && ShowsOutcome(m'.record.value, reply))
  {
    hide Outcomes, ShowsOutcome, EventsFit;
  }

  /** When a commit asks Brain or its native service. */
  predicate Proceeds(r: Record, native: Option<Receipt>, check: Check) {
    && !Final(r)
    && if r.kind.Misrecorded? then r.state.Prepared? ==> check.unexpired && check.same
       else
         && check.readable && native.Some?
         && (native.value.state.Prepared? && check.available ==> check.sources)
         && (r.kind.Delete? && r.state.Prepared? ==>
               native.value.state.Prepared? && check.unexpired && check.same && check.sources)
  }

  predicate AnswersKind(kind: Kind, reply: Reply) {
    match kind
    case Delete => reply.Rejected? || reply.Erased?
    case Misrecorded => !reply.Unreached?
    case Other => reply.Native?
  }

  /** A commit that proceeds and is answered stores exactly what the answer says; any other
      stores no answer. */
  lemma {:induction false} CommitShowsItsAnswer(actions: seq<Action>, check: Check, reply: Reply)
    requires Exec(actions).pc.Idle? && Exec(actions).record.Some?
    ensures var m := Exec(actions);
      var r, m' := m.record.value, RunOut(Apply(m, Commit(check)), reply);
      && m'.record.Some? && m'.record.value.kind == r.kind
      && (if Proceeds(r, m.native, check) && AnswersKind(r.kind, reply)
          then m'.saved == m.saved + [reply] && ShowsOutcome(m'.record.value, reply)
          else m'.saved == m.saved)
  {
    var m := Exec(actions);
    InvHolds(actions);
    OutcomesHold(actions);
    CommitKeeps(m, check);
    CommitBegins(m, check, reply);
    RunOutStores(Apply(m, Commit(check)), reply);
  }

  lemma CommitBegins(m: Machine, check: Check, reply: Reply)
    requires Inv(m) && OutcomesFit(m) && m.pc.Idle? && m.record.Some?
    ensures var m0 := Apply(m, Commit(check));
      && m0.record == m.record && m0.saved == m.saved && OutcomesFit(m0) && !m0.pc.Answered?
      && (Stores(m0.pc, reply) <==> Proceeds(m.record.value, m.native, check) && AnswersKind(m.record.value.kind, reply))
  {
    hide Outcomes, ShowsOutcome;
  }

  // ---------------------------------------------------------------- the host's code

  class MutationService {
    var record: Option<Record>
    var native: Option<Receipt>
    ghost var machine: Machine
    ghost var log: seq<Action>

    ghost predicate Valid()
      reads this
    {
      machine == Exec(log) && machine.record == record && machine.native == native
    }

    constructor ()
      ensures Valid() && machine == Start
    {
      record, native := None, None;
      machine, log := Start, [];
    }

    ghost method Note(action: Action)
      requires machine == Exec(log)
      modifies this`machine, this`log
      ensures machine == Apply(old(machine), action) == Exec(log)
      ensures old(log) <= log
    {
      ExecStep(log, action);
      machine, log := Apply(machine, action), log + [action];
    }

    ghost method NoteNext(reply: Reply)
      requires machine == Exec(log) && !machine.pc.Idle?
      modifies this`machine, this`log
      ensures machine == AdvanceFrom(old(machine), reply) == Exec(log)
      ensures RunOut(machine, reply) == RunOut(old(machine), reply)
      ensures old(log) <= log
    {
      Note(Advance(reply));
    }

    method DiscardChange() returns (result: Result<(), string>)
      requires Valid() && machine.pc.Idle?
      modifies this
      ensures Valid() && old(log) <= log
      ensures machine == RunOut(Apply(old(machine), Discard), Silent)
      ensures result.Err? <==> old(record).Some? && !old(record).value.state.Prepared? && !old(record).value.state.Discarded?
    {
      hide Exec;
      Note(Discard);
      var stored := record;
      if stored.Some? {
        if stored.value.state.Discarded? {
          return Ok(());
        }
        if !stored.value.state.Prepared? {
          return Err("memory_change_pending");
        }
      }
      if stored.None? {
        native := Released(native);
        return Ok(());
      }
      if stored.value.receipt.Some? {
        native := Released(native);
        NoteNext(Silent);
      }
      record := Some(DiscardRecord(stored.value, native));
      NoteNext(Silent);
      return Ok(());
    }

    method CommitInner(check: Check, reply: Reply) returns (result: Result<Record, string>)
      requires Valid() && machine.pc.Idle?
      modifies this
      ensures Valid() && old(log) <= log
      ensures machine == RunOut(Apply(old(machine), Commit(check)), reply)
      ensures result.Ok? ==> Some(result.value) == record
      ensures old(record).Some? && Proceeds(old(record).value, old(native), check) && AnswersKind(old(record).value.kind, reply) ==>
                record.Some? && ShowsOutcome(record.value, reply)
    {
      hide Exec, Proceeds, ShowsOutcome, AnswersKind;
      if record.Some? {
        CommitShowsItsAnswer(log, check, reply);
      }
      Note(Commit(check));
      if record.None? {
        return Err("not_found");
      }
      var r := record.value;
      StoredRecord(old(log), r);
      if Clean(r) || r.state.Failed? || r.state.Blocked? {
        return Ok(r);
      }
      if r.state.Discarded? {
        return Err("preview_expired");
      }
      if r.receipt.None? {
        result := CommitRepair(r, check, reply);
        return;
      }
      if !check.readable || native.None? {
        return Err("not_found");
      }
      var current := native.value;
      if current.state.Prepared? && check.available && !check.sources {
        return Err("unsupported_scope");
      }
      if r.kind.Delete? && !current.state.Confirmed? {
        result := CommitDeletion(r, current, check, reply);
        return;
      }
      result := CommitNative(r, reply);
    }

    method CommitRepair(r: Record, check: Check, reply: Reply) returns (result: Result<Record, string>)
      requires Valid() && record == Some(r) && r.before.Some?
      requires if r.state.Prepared? && !(check.unexpired && check.same) then machine.pc.Idle? else machine.pc.Repairing?
      modifies this
      ensures Valid() && old(log) <= log
      ensures machine == RunOut(old(machine), reply)
      ensures result.Ok? ==> Some(result.value) == record
      ensures if (r.state.Prepared? ==> check.unexpired && check.same) && !reply.Unreached?
              then result.Ok? && ShowsOutcome(result.value, reply) else result.Err?
    {
      RunStores(log, reply);
      hide Exec, ShowsOutcome;
      if r.state.Prepared? {
        if !check.unexpired {
          return Err("preview_expired");
        }
        if !check.same {
          return Err("revision_conflict");
        }
      }
      var r := r.(state := Committing);
      record := Some(r);
      NoteNext(reply);
      NoteNext(reply);
      if reply.Unreached? {
        return Err("unavailable");
      }
      r := AfterRevise(r, reply);
      record := Some(r);
      NoteNext(reply);
      return Ok(r);
    }

    method CommitDeletion(r: Record, current: Receipt, check: Check, reply: Reply) returns (result: Result<Record, string>)
      requires Valid() && record == Some(r) && native == Some(current)
      requires if !r.state.Prepared? then machine.pc.ReleasingPreview?
               else if current.state.Prepared? && check.unexpired && check.same && check.sources then machine.pc.Admitting?
               else machine.pc.Idle?
      modifies this
      ensures Valid() && old(log) <= log
      ensures machine == RunOut(old(machine), reply)
      ensures result.Ok? ==> Some(result.value) == record
    {
      hide Exec;
      var r := r;
      if r.state.Prepared? {
        // The whole closure is rebuilt and compared before the deletion is admitted.
        if !current.state.Prepared? || !check.unexpired {
          return Err("preview_expired");
        }
        if !check.same {
          return Err("revision_conflict");
        }
        if !check.sources {
          return Err("unsupported_scope");
        }
        r := r.(state := Committing);
        record := Some(r);
        NoteNext(reply);
      }
      if current.state.Prepared? {
        native := Some(current.(state := Discarded));
      }
      NoteNext(reply);
      result := CommitErasure(r, reply);
    }

    method CommitErasure(r: Record, reply: Reply) returns (result: Result<Record, string>)
      requires Valid() && record == Some(r) && machine.pc.Erasing?
      modifies this
      ensures Valid() && old(log) <= log
      ensures machine == RunOut(old(machine), reply)
      ensures result.Ok? ==> Some(result.value) == record
      ensures if reply.Rejected? || reply.Erased? then result.Ok? && ShowsOutcome(result.value, reply) else result.Err?
    {
      RunStores(log, reply);
      hide Exec, ShowsOutcome;
      var r := r.(state := Committing);
      record := Some(r);
      NoteNext(reply);
      NoteNext(reply);
      if !reply.Rejected? && !reply.Erased? {
        return Err("forget returned no result");
      }
      r := AfterForget(r, reply);
      record := Some(r);
      NoteNext(reply);
      return Ok(r);
    }

    method CommitNative(r: Record, reply: Reply) returns (result: Result<Record, string>)
      requires Valid() && record == Some(r) && machine.pc.AdmittingNative?
      modifies this
      ensures Valid() && old(log) <= log
      ensures machine == RunOut(old(machine), reply)
      ensures result.Ok? ==> Some(result.value) == record
    {
      hide Exec;
      var r := r.(state := Committing);
      record := Some(r);
      NoteNext(reply);
      match reply {
        case Native(receipt, failure) =>
          native := Some(receipt);
          NoteNext(reply);
          r := AfterNative(r, receipt, failure);
          record := Some(r);
          NoteNext(reply);
          if r.state.Prepared? && failure.Some? {
            return Err(failure.value);
          }
          return Ok(r);
        case _ =>
          NoteNext(reply);
          return Err("unavailable");
      }
    }

    /** Recovery resumes an admitted change and drops an expired preview; `again` says the
        change is to be looked at later. */
    method RecoverOne(now: nat, check: Check, reply: Reply) returns (result: Result<bool, string>)
      requires Valid() && machine.pc.Idle?
      modifies this
      ensures Valid() && machine.pc.Idle? && old(log) <= log
      ensures old(record).None? || (Final(old(record).value)) ==> machine == old(machine) && result == Ok(false)
      ensures old(record).Some? && old(record).value.state.Prepared? ==>
                machine == (if now > old(record).value.expiresAt then RunOut(Apply(old(machine), Discard), Silent) else old(machine))
                && result == Ok(now <= old(record).value.expiresAt)
      ensures old(record).Some? && (old(record).value.state.Committing? || old(record).value.state.Reconciling?) ==>
                machine == RunOut(Apply(old(machine), Commit(check)), reply)
                && (result.Ok? ==> record.Some? && result.value == (record.value.state.Committing? || record.value.state.Reconciling?))
    {
      hide Exec;
      if record.None? {
        return Ok(false);
      }
      var r := record.value;
      StoredRecord(log, r);
      if r.state.Committing? || r.state.Reconciling? || (r.state.Confirmed? && !Clean(r)) {
        var committed := CommitInner(check, reply);
        match committed {
          case Ok(view) => return Ok(view.state.Committing? || view.state.Reconciling?);
          case Err(error) => return Err(error);
        }
      }
      if r.state.Prepared? {
        if now > r.expiresAt {
          var discarded := DiscardChange();
          return Ok(false);
        }
        return Ok(true);
      }
      return Ok(false);
    }
  }
}
