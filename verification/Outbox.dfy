/** Terminal replies, saved before they are sent: one item's pending file, and any number of
    terminals that create it, read it, send what it holds and remove it. */
module Outbox {
  import opened Wrappers
  import opened Text

  const MAX_TEXT := 8192
  const MAX_FILE := 32_768

  datatype Pending = Pending(event: nat, text: string)
  datatype Send = Send(event: nat, text: string, acknowledged: bool)

  predicate Acceptable(text: string) {
    Utf8Size(text) <= MAX_TEXT && exists i :: 0 <= i < |text| && text[i] !in " \t\r\n"
  }

  /** The bytes of a character inside a JSON string. */
  function JsonChar(c: char): nat {
    if c in "\"\\\n\r\t" || c as int in {8, 12} then 2 else if c as int < 0x20 then 6 else CharSize(c)
  }

  function JsonSize(text: string): nat {
    if text == "" then 0 else JsonSize(text[..|text| - 1]) + JsonChar(text[|text| - 1])
  }

  /** A larger pending file is refused; `rest` are its bytes beside the text. */
  predicate Fits(saved: Pending, rest: nat) { rest + JsonSize(saved.text) <= MAX_FILE }

  datatype Pc =
    | Looking(mine: Pending)
    | Linking(mine: Pending)
    | Reading(text: string)
    | Sending(saved: Pending)
    | Removing

  /** `events` counts the event keys handed out: each is fresh. */
  datatype Machine = Machine(
    rest: nat, file: Option<Pending>, terminals: map<nat, Pc>, events: nat, sends: seq<Send>)

  /** Every action is one atomic step of one terminal; `Quit` is that terminal's death. */
  datatype Action =
    | Reply(p: nat, text: string)
    | Retry(p: nat)
    | Next(p: nat, acknowledged: bool)
    | Quit(p: nat)

  function Start(rest: nat): Machine { Machine(rest, None, map[], 0, []) }

  function Begin(m: Machine, p: nat, text: string): Machine {
    m.(terminals := m.terminals[p := Looking(Pending(m.events, text))], events := m.events + 1)
  }

  function End(m: Machine, p: nat): Machine { m.(terminals := m.terminals - {p}) }

  function Step(m: Machine, p: nat, acknowledged: bool): Machine
    requires p in m.terminals
  {
    match m.terminals[p]
    case Looking(mine) =>
      // The file of another reply is left in place; its own is created only under a free name.
      m.(terminals := m.terminals[p := if m.file.Some? then Reading(mine.text) else Linking(mine)])
    case Linking(mine) =>
      m.(file := if m.file.Some? then m.file else Some(mine), terminals := m.terminals[p := Reading(mine.text)])
    case Reading(text) =>
      if m.file.Some? && Fits(m.file.value, m.rest) && m.file.value.text == text then m.(terminals := m.terminals[p := Sending(m.file.value)])
      else End(m, p)
    case Sending(saved) =>
      var m' := m.(sends := m.sends + [Send(saved.event, saved.text, acknowledged)]);
      if acknowledged then m'.(terminals := m.terminals[p := Removing]) else End(m', p)
    case Removing => End(m.(file := None), p)
  }

  function Apply(m: Machine, action: Action): Machine {
    match action
    case Reply(p, text) => if p in m.terminals || !Acceptable(text) then m else Begin(m, p, text)
    case Retry(p) =>
      if p in m.terminals || m.file.None? || !Fits(m.file.value, m.rest) || !Acceptable(m.file.value.text) then m
      else Begin(m, p, m.file.value.text)
    case Next(p, acknowledged) => if p in m.terminals then Step(m, p, acknowledged) else m
    case Quit(p) => End(m, p)
  }

  function Exec(rest: nat, actions: seq<Action>): Machine {
    if actions == [] then Start(rest)
    else Apply(Exec(rest, actions[..|actions| - 1]), actions[|actions| - 1])
  }

  // ---------------------------------------------------------------- until the first acknowledgement

  predicate Acknowledged(sends: seq<Send>) {
    exists i :: 0 <= i < |sends| && sends[i].acknowledged
  }

  predicate Carries(send: Send, saved: Pending) { send.event == saved.event && send.text == saved.text }

  /** Every send up to and including the first acknowledged one carries one reply. */
  ghost predicate OneReply(sends: seq<Send>) {
    forall i, j :: 0 <= i < j < |sends| && !Acknowledged(sends[..j]) ==>
      sends[i].event == sends[j].event && sends[i].text == sends[j].text
  }

  ghost predicate Inv(m: Machine) {
    && OneReply(m.sends)
    && (!Acknowledged(m.sends) ==>
          && (m.file.None? ==> m.sends == [])
          && (m.file.Some? ==> forall i :: 0 <= i < |m.sends| ==> Carries(m.sends[i], m.file.value))
          && (forall p :: p in m.terminals ==>
                !m.terminals[p].Removing?
                && (m.terminals[p].Sending? ==> m.file == Some(m.terminals[p].saved))))
  }

  lemma SendKeeps(sends: seq<Send>, send: Send)
    requires OneReply(sends)
    requires !Acknowledged(sends) ==> forall i :: 0 <= i < |sends| ==> sends[i].event == send.event && sends[i].text == send.text
    ensures OneReply(sends + [send])
    ensures Acknowledged(sends + [send]) <==> Acknowledged(sends) || send.acknowledged
  {
    var more := sends + [send];
    forall i, j | 0 <= i < j < |more| && !Acknowledged(more[..j])
      ensures more[i].event == more[j].event && more[i].text == more[j].text
    {
      if j == |sends| {
        assert more[..j] == sends;
      } else {
        assert more[..j] == sends[..j];
      }
    }
    if Acknowledged(sends) {
      var i :| 0 <= i < |sends| && sends[i].acknowledged;
      assert more[i].acknowledged;
    }
    assert more[|sends|] == send;
  }

  lemma StepKeeps(m: Machine, p: nat, acknowledged: bool)
    requires Inv(m) && p in m.terminals
    ensures Inv(Step(m, p, acknowledged))
  {
    if m.terminals[p].Sending? {
      var saved := m.terminals[p].saved;
      SendKeeps(m.sends, Send(saved.event, saved.text, acknowledged));
    }
  }

  lemma {:induction false} InvHolds(rest: nat, actions: seq<Action>)
    ensures Inv(Exec(rest, actions))
  {
    if actions != [] {
      var m, action := Exec(rest, actions[..|actions| - 1]), actions[|actions| - 1];
      InvHolds(rest, actions[..|actions| - 1]);
      if action.Next? && action.p in m.terminals {
        StepKeeps(m, action.p, action.acknowledged);
      }
    }
  }

  /** Across any number of terminals, lost acknowledgements and deaths: the sends up to the
      first acknowledged one carry one event key and one text. */
  lemma {:induction false} OneReplyUntilAcknowledged(rest: nat, actions: seq<Action>, i: nat, j: nat)
    requires i < j < |Exec(rest, actions).sends|
    requires !Acknowledged(Exec(rest, actions).sends[..j])
    ensures Exec(rest, actions).sends[i].event == Exec(rest, actions).sends[j].event
    ensures Exec(rest, actions).sends[i].text == Exec(rest, actions).sends[j].text
  {
    InvHolds(rest, actions);
  }

  /** Until then, what is about to be sent is still in the file, so a retry would repeat it. */
  lemma {:induction false} SavedWhileSending(rest: nat, actions: seq<Action>, p: nat)
    requires !Acknowledged(Exec(rest, actions).sends)
    requires p in Exec(rest, actions).terminals && Exec(rest, actions).terminals[p].Sending?
    ensures Exec(rest, actions).file == Some(Exec(rest, actions).terminals[p].saved)
  {
    InvHolds(rest, actions);
  }

  ghost predicate Reachable(m: Machine) { exists actions :: Exec(m.rest, actions) == m }

  lemma Reaches(m: Machine, action: Action) returns (m': Machine)
    requires Reachable(m)
    ensures Reachable(m') && m' == Apply(m, action)
  {
    var actions :| Exec(m.rest, actions) == m;
    assert (actions + [action])[..|actions|] == actions;
    m' := Apply(m, action);
    assert Exec(m.rest, actions + [action]) == m' && m'.rest == m.rest;
  }

  lemma Saves(m: Machine, p: nat, text: string) returns (m': Machine)
    requires Reachable(m) && p !in m.terminals && Acceptable(text) && m.file.None?
    ensures Reachable(m') && m' == Machine(m.rest, Some(Pending(m.events, text)), m.terminals[p := Reading(text)], m.events + 1, m.sends)
  {
    m' := Reaches(m, Reply(p, text));
    m' := Reaches(m', Next(p, false));
    m' := Reaches(m', Next(p, false));
  }

  /** Some terminal is about to send `text`, which no file holds. */
  ghost predicate SendsUnsaved(m: Machine, text: string) {
    m.file.None? && exists p :: p in m.terminals && m.terminals[p].Sending? && m.terminals[p].saved.text == text
  }

  lemma TwoSend(rest: nat, text: string) returns (m: Machine)
    requires Acceptable(text) && rest + JsonSize(text) <= MAX_FILE
    ensures Reachable(m) && m.rest == rest && m.terminals == map[0 := Removing, 1 := Sending(Pending(0, text))]
  {
    assert Exec(rest, []) == Start(rest);
    hide Exec, Acceptable, JsonSize;
    m := Saves(Start(rest), 0, text);
    m := Reaches(m, Retry(1));
    m := Reaches(m, Next(1, true));
    m := Reaches(m, Next(1, true));
    m := Reaches(m, Next(0, true));
    m := Reaches(m, Next(0, true));
  }

  /** The bound at the acknowledgement is sharp: a terminal that is slow to remove the file it
      sent removes the reply another terminal saved since, which is then about to be sent
      without being saved. */
  lemma SlowRemovalDropsAReply(rest: nat, first: string, second: string)
    requires Acceptable(first) && Acceptable(second) && rest + JsonSize(first) <= MAX_FILE && rest + JsonSize(second) <= MAX_FILE
    ensures exists m :: Reachable(m) && m.rest == rest && SendsUnsaved(m, second)
  {
    var m := TwoSend(rest, first);
    m := SlowRemovalFollows(m, first, second);
    assert SendsUnsaved(m, second);
  }

  lemma SlowRemovalFollows(start: Machine, first: string, second: string) returns (m: Machine)
    requires Reachable(start) && Acceptable(second) && 2 !in start.terminals && start.rest + JsonSize(second) <= MAX_FILE
    requires start.terminals == map[0 := Removing, 1 := Sending(Pending(0, first))]
    ensures Reachable(m) && 2 in m.terminals && m.terminals[2].Sending? && m.terminals[2].saved.text == second
    ensures m.file.None? && m.rest == start.rest
  {
    m := Reaches(start, Next(1, true));
    m := Reaches(m, Next(1, true));
    m := Saves(m, 2, second);
    m := Reaches(m, Next(2, true));
    m := Reaches(m, Next(0, true));
  }

  // ---------------------------------------------------------------- replies too large to read back

  ghost predicate AllAcceptable(m: Machine) {
    && (m.file.Some? ==> Acceptable(m.file.value.text))
    && (forall p :: p in m.terminals ==>
          (m.terminals[p].Looking? || m.terminals[p].Linking? ==> Acceptable(m.terminals[p].mine.text)))
  }

  lemma {:induction false} AcceptableHolds(rest: nat, actions: seq<Action>)
    ensures AllAcceptable(Exec(rest, actions)) && Exec(rest, actions).rest == rest
  {
    hide Acceptable, Fits;
    if actions != [] {
      AcceptableHolds(rest, actions[..|actions| - 1]);
    }
  }

  /** The saved reply, which nobody is about to send or remove. */
  ghost predicate Resting(m: Machine, saved: Pending) {
    && m.file == Some(saved)
    && (forall p :: p in m.terminals ==> !m.terminals[p].Sending? && !m.terminals[p].Removing?)
  }

  /** A saved reply whose file is over the limit stays, and keeps every reply from being sent. */
  lemma {:induction false} OversizedReplyStays(rest: nat, actions: seq<Action>, more: seq<Action>, saved: Pending)
    requires Resting(Exec(rest, actions), saved) && !Fits(saved, rest)
    ensures Resting(Exec(rest, actions + more), saved) && Exec(rest, actions + more).sends == Exec(rest, actions).sends
  {
    hide Acceptable, Fits;
    if more == [] {
      assert actions + more == actions;
    } else {
      var front := actions + more[..|more| - 1];
      OversizedReplyStays(rest, actions, more[..|more| - 1], saved);
      AcceptableHolds(rest, front);
      assert actions + more == front + [more[|more| - 1]];
      assert (front + [more[|more| - 1]])[..|front|] == front;
    }
  }

  ghost predicate CanSend(rest: nat, actions: seq<Action>) {
    exists more :: |Exec(rest, actions + more).sends| > |Exec(rest, actions).sends|
  }

  /** A saved reply can still be sent if and only if its file is within the limit. */
  lemma {:induction false} SavedIsSentExactly(rest: nat, actions: seq<Action>, saved: Pending, p: nat)
    requires Resting(Exec(rest, actions), saved) && p !in Exec(rest, actions).terminals
    ensures CanSend(rest, actions) <==> Fits(saved, rest)
  {
    if Fits(saved, rest) {
      RetrySends(rest, actions, saved, p);
    } else if CanSend(rest, actions) {
      var more :| |Exec(rest, actions + more).sends| > |Exec(rest, actions).sends|;
      OversizedReplyStays(rest, actions, more, saved);
    }
  }

  lemma RetrySends(rest: nat, actions: seq<Action>, saved: Pending, p: nat)
    requires Resting(Exec(rest, actions), saved) && p !in Exec(rest, actions).terminals && Fits(saved, rest)
    ensures CanSend(rest, actions)
  {
    hide Acceptable, Fits;
    var m := Exec(rest, actions);
    AcceptableHolds(rest, actions);
    var more := [Retry(p), Next(p, true), Next(p, true), Next(p, true)];
    var a1 := actions + [more[0]];
    var a2, a3, a4 := a1 + [more[1]], a1 + [more[1]] + [more[2]], a1 + [more[1]] + [more[2]] + [more[3]];
    assert a1[..|actions|] == actions && a2[..|a1|] == a1 && a3[..|a2|] == a2 && a4[..|a3|] == a3;
    assert Exec(rest, a1).terminals[p] == Looking(Pending(m.events, saved.text));
    assert Exec(rest, a2).terminals[p] == Reading(saved.text);
    assert Exec(rest, a3).terminals[p] == Sending(saved);
    assert Exec(rest, a4).sends == m.sends + [Send(saved.event, saved.text, true)];
    assert a4 == actions + more;
  }

  function Repeat(c: char, n: nat): string { if n == 0 then "" else Repeat(c, n - 1) + [c] }

  lemma {:induction false} RepeatSizes(c: char, n: nat)
    ensures |Repeat(c, n)| == n && Utf8Size(Repeat(c, n)) == n * CharSize(c) && JsonSize(Repeat(c, n)) == n * JsonChar(c)
    ensures n > 0 ==> Repeat(c, n)[0] == c
  {
    if n > 0 {
      RepeatSizes(c, n - 1);
    }
  }

  /** Such replies are accepted: control characters are one byte of text and six of the file. */
  lemma OversizedReplyIsSaved(rest: nat)
    ensures exists m, saved :: Reachable(m) && m.rest == rest && Resting(m, saved) && !Fits(saved, rest)
  {
    var text := Repeat(1 as char, MAX_TEXT);
    RepeatSizes(1 as char, MAX_TEXT);
    assert Acceptable(text) by {
      assert text[0] !in " \t\r\n";
    }
    assert Exec(rest, []) == Start(rest);
    var m := Saves(Start(rest), 0, text);
    assert Resting(m, Pending(0, text));
  }

  // ---------------------------------------------------------------- the host's code

  class PendingFile {
    const rest: nat
    var file: Option<Pending>
    var sends: seq<Send>

    constructor (rest: nat)
      ensures file.None? && sends == [] && this.rest == rest
    {
      this.rest, file, sends := rest, None, [];
    }

    /** One uninterrupted reply under the fresh key `event`. */
    method Reply(text: string, event: nat, acknowledged: bool) returns (ok: bool)
      modifies this
      ensures var saved := if old(file).Some? then old(file).value else Pending(event, text);
        if !Acceptable(text) then !ok && file == old(file) && sends == old(sends)
        else if !Fits(saved, rest) || saved.text != text then !ok && file == Some(saved) && sends == old(sends)
        else ok == acknowledged && file == (if acknowledged then None else Some(saved))
             && sends == old(sends) + [Send(saved.event, text, acknowledged)]
    {
      if !(Utf8Size(text) <= MAX_TEXT && exists i :: 0 <= i < |text| && text[i] !in " \t\r\n") {
        return false;
      }
      if file.None? {
        file := Some(Pending(event, text));
      }
      // What the file holds is sent, whichever terminal put it there.
      var saved := file.value;
      if rest + JsonSize(saved.text) > MAX_FILE {
        return false;
      }
      if saved.text != text {
        return false;
      }
      sends := sends + [Send(saved.event, saved.text, acknowledged)];
      if !acknowledged {
        return false;
      }
      file := None;
      return true;
    }

    method Retry(event: nat, acknowledged: bool) returns (ok: bool)
      modifies this
      ensures old(file).None? || !Fits(old(file).value, rest) ==> !ok && file == old(file) && sends == old(sends)
      ensures old(file).Some? && Fits(old(file).value, rest) && Acceptable(old(file).value.text) ==>
                ok == acknowledged
                && sends == old(sends) + [Send(old(file).value.event, old(file).value.text, acknowledged)]
    {
      if file.None? || rest + JsonSize(file.value.text) > MAX_FILE {
        return false;
      }
      ok := Reply(file.value.text, event, acknowledged);
    }
  }
}
