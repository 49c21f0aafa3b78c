/** The idempotency key a Formation window is observed under. */
module WindowKeys {
  import Text

  const PREFIX := "anda-bot/formation/"

  function ObserveKey(conversation: nat, start: nat, attempt: nat): string {
    PREFIX + (Text.Decimal(conversation) + ['/'] + (Text.Decimal(start) + ['/'] + Text.Decimal(attempt)))
  }

  lemma NumberFirst(n: nat, rest: string)
    ensures var s := Text.Decimal(n) + ['/'] + rest;
      Text.IndexOf(s, '/') == |Text.Decimal(n)| && s[..Text.IndexOf(s, '/')] == Text.Decimal(n)
      && s[Text.IndexOf(s, '/') + 1..] == rest
  {
    var digits := Text.Decimal(n);
    assert forall i :: 0 <= i < |digits| ==> digits[i] != '/';
    Text.IndexOfAfter(digits, '/', rest);
  }

  lemma DecimalsDiffer(n: nat, m: nat)
    ensures Text.Decimal(n) == Text.Decimal(m) <==> n == m
  {
    Text.DecimalRoundTrip(n);
    Text.DecimalRoundTrip(m);
  }

  lemma PairsDiffer(n: nat, rest: string, m: nat, more: string)
    ensures Text.Decimal(n) + ['/'] + rest == Text.Decimal(m) + ['/'] + more <==> n == m && rest == more
  {
    NumberFirst(n, rest);
    NumberFirst(m, more);
    DecimalsDiffer(n, m);
    hide Text.Decimal, Text.IndexOf;
  }

  /** Windows and attempts that differ anywhere are observed under different keys. */
  lemma ObserveKeysDiffer(c: nat, s: nat, a: nat, c': nat, s': nat, a': nat)
    ensures ObserveKey(c, s, a) == ObserveKey(c', s', a') <==> c == c' && s == s' && a == a'
  {
    hide Text.Decimal;
    var tail, tail' := Text.Decimal(s) + ['/'] + Text.Decimal(a), Text.Decimal(s') + ['/'] + Text.Decimal(a');
    PairsDiffer(c, tail, c', tail');
    PairsDiffer(s, Text.Decimal(a), s', Text.Decimal(a'));
    DecimalsDiffer(a, a');
    assert ObserveKey(c, s, a)[|PREFIX|..] == Text.Decimal(c) + ['/'] + tail;
    assert ObserveKey(c', s', a')[|PREFIX|..] == Text.Decimal(c') + ['/'] + tail';
  }
}
