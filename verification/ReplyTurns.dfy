/** What each step of a terminal that answers does.

    The steps hold whatever other terminals do in between, since each finds the pending file as
    they left it. The last lemma is of a reply that is alone: it sends its own text under its own
    key, and is saved until that is acknowledged. */
module ReplyTurns {
  import opened Wrappers
  import opened Outbox
  import opened Text

  /** Only the terminal itself goes on, or is done. */
  predicate GoesOn(m: Machine, m': Machine, p: nat, pc: Option<Pc>) {
    m'.rest == m.rest && m'.events == m.events && m'.terminals == if pc.Some? then m.terminals[p := pc.value] else m.terminals - {p}
  }

  /** In the file a quote, a backslash and the short control characters take two bytes, the
      other control characters six, and any other character what it takes in UTF-8. */
  lemma JsonCharExactly(c: char)
    ensures JsonChar(c) == if c == '\"' || c == '\\' || c as int in {8, 9, 10, 12, 13} then 2 else if c as int < 32 then 6 else CharSize(c)
  {
  }

  /** Text of 1 to 8192 bytes that is not all blank can be sent, under a new event key. */
  lemma ReplyExactly(m: Machine, p: nat, text: string)
    ensures var m' := Apply(m, Reply(p, text));
      if p !in m.terminals && Utf8Size(text) <= 8192 && exists i :: 0 <= i < |text| && text[i] !in " \t\r\n" then
        && m'.terminals == m.terminals[p := Looking(Pending(m.events, text))] && m'.events == m.events + 1
        && m'.file == m.file && m'.sends == m.sends && m'.rest == m.rest
      else m' == m
  {
  }

  /** A retry sends what is saved, where that can be read. */
  lemma RetryExactly(m: Machine, p: nat)
    ensures var m' := Apply(m, Retry(p));
      if m.file.Some? && m.rest + JsonSize(m.file.value.text) <= 32_768 then m' == Apply(m, Reply(p, m.file.value.text))
      else m' == m
  {
    hide Acceptable;
  }

  /** Its own reply is saved only where none is; what is saved is sent if it is readable and of
      the same text; and the file is removed once that was acknowledged. */
  lemma StepExactly(m: Machine, p: nat, acknowledged: bool)
    requires p in m.terminals
    ensures var m' := Apply(m, Next(p, acknowledged));
      match m.terminals[p]
      case Looking(mine) =>
        && m'.file == m.file && m'.sends == m.sends
        && GoesOn(m, m', p, Some(if m.file.Some? then Reading(mine.text) else Linking(mine)))
      case Linking(mine) =>
        && m'.file == (if m.file.Some? then m.file else Some(mine)) && m'.sends == m.sends
        && GoesOn(m, m', p, Some(Reading(mine.text)))
      case Reading(text) =>
        && m'.file == m.file && m'.sends == m.sends
        && GoesOn(m, m', p, if m.file.Some? && m.rest + JsonSize(m.file.value.text) <= 32_768 && m.file.value.text == text
                            then Some(Sending(m.file.value)) else None)
      case Sending(saved) =>
        && m'.file == m.file && m'.sends == m.sends + [Send(saved.event, saved.text, acknowledged)]
        && GoesOn(m, m', p, if acknowledged then Some(Removing) else None)
      case Removing => m'.file.None? && m'.sends == m.sends && GoesOn(m, m', p, None)
    ensures Apply(m, Quit(p)) == m.(terminals := m.terminals - {p})
  {
  }

  /** A reply that nobody interrupts, with nothing saved, sends its own text under its own key,
      and stays saved exactly until it is acknowledged. */
  lemma AloneSends(m: Machine, p: nat, text: string, acknowledged: bool)
    requires p !in m.terminals && m.file.None? && Acceptable(text) && m.rest + JsonSize(text) <= 32_768
    ensures var m1 := Apply(Apply(Apply(m, Reply(p, text)), Next(p, false)), Next(p, false));
      var m' := Apply(Apply(Apply(m1, Next(p, false)), Next(p, acknowledged)), Next(p, false));
      && m'.sends == m.sends + [Send(m.events, text, acknowledged)]
      && m'.terminals == m.terminals && m'.file == if acknowledged then None else Some(Pending(m.events, text))
  {
    var m0 := Apply(m, Reply(p, text));
    var m1 := Apply(Apply(m0, Next(p, false)), Next(p, false));
    hide Acceptable, JsonSize;
    assert m1.file == Some(Pending(m.events, text)) && m1.terminals == m.terminals[p := Reading(text)];
    var m2 := Apply(m1, Next(p, false));
    assert m2.terminals == m.terminals[p := Sending(Pending(m.events, text))];
    var m3 := Apply(m2, Next(p, acknowledged));
    assert m.terminals[p := Removing] - {p} == m.terminals;
    assert m.terminals - {p} == m.terminals;
  }
}
