/** Release tags and which of two is newer. */
module Releases {
  import opened Wrappers
  import Text

  const U64_MAX := 0xffff_ffff_ffff_ffff

  /** A tag's numbers, and whether it is a final release. */
  datatype Version = Version(parts: seq<nat>, final: bool)

  predicate Space(c: char) { c in " \t\n\r" }

  function TrimStart(s: string): string { if s != "" && Space(s[0]) then TrimStart(s[1..]) else s }

  function TrimEnd(s: string): string { if s != "" && Space(s[|s| - 1]) then TrimEnd(s[..|s| - 1]) else s }

  function DropV(s: string): string { if s != "" && s[0] == 'v' then DropV(s[1..]) else s }

  function Before(s: string, c: char): string { s[..Text.IndexOf(s, c)] }

  /** The parts of a text between its dots. */
  function Split(s: string): (parts: seq<string>)
    ensures parts != []
    decreases |s|
  {
    var i := Text.IndexOf(s, '.');
    if i == |s| then [s] else [s[..i]] + Split(s[i + 1..])
  }

  function ParsePart(s: string): Option<nat> {
    if Text.Digits(s) && Text.ParseDecimal(s) <= U64_MAX then Some(Text.ParseDecimal(s)) else None
  }

  function ParseParts(parts: seq<string>): Option<seq<nat>> {
    if parts == [] then Some([])
    else
      var first, rest := ParsePart(parts[0]), ParseParts(parts[1..]);
      if first.None? || rest.None? then None else Some([first.value] + rest.value)
  }

  function ParseNumbers(s: string): Option<seq<nat>> {
    var version := Before(s, '+');
    if version == "" then None else ParseParts(Split(version))
  }

  function Parse(tag: string): Option<Version> {
    var t := DropV(TrimEnd(TrimStart(tag)));
    var numbers := ParseNumbers(Before(t, '-'));
    if numbers.None? then None else Some(Version(numbers.value, '-' !in t))
  }

  /** Text order on lists of numbers. */
  predicate PartsLess(a: seq<nat>, b: seq<nat>) {
    b != [] && (a == [] || a[0] < b[0] || (a[0] == b[0] && PartsLess(a[1..], b[1..])))
  }

  predicate Less(a: Version, b: Version) {
    PartsLess(a.parts, b.parts) || (a.parts == b.parts && !a.final && b.final)
  }

  predicate IsNewer(latest: string, current: string) {
    if latest == current then false
    else if Parse(latest).Some? && Parse(current).Some? then Less(Parse(current).value, Parse(latest).value)
    else true
  }

  lemma {:induction false} PartsIrreflexive(a: seq<nat>)
    ensures !PartsLess(a, a)
  {
    if a != [] {
      PartsIrreflexive(a[1..]);
    }
  }

  lemma {:induction false} PartsTransitive(a: seq<nat>, b: seq<nat>, c: seq<nat>)
    requires PartsLess(a, b) && PartsLess(b, c)
    ensures PartsLess(a, c)
  {
    if a != [] && a[0] == b[0] == c[0] {
      PartsTransitive(a[1..], b[1..], c[1..]);
    }
  }

  lemma {:induction false} PartsTotal(a: seq<nat>, b: seq<nat>)
    ensures PartsLess(a, b) || a == b || PartsLess(b, a)
  {
    if a != [] && b != [] && a[0] == b[0] {
      PartsTotal(a[1..], b[1..]);
      assert a == [a[0]] + a[1..] && b == [b[0]] + b[1..];
    }
  }

  /** Tags that parse are compared by their versions alone. */
  lemma NewerByVersion(a: string, b: string)
    requires Parse(a).Some? && Parse(b).Some?
    ensures IsNewer(a, b) <==> Less(Parse(b).value, Parse(a).value)
  {
    PartsIrreflexive(Parse(a).value.parts);
  }

  /** On tags that parse, newer is a strict weak order: irreflexive, transitive, and so is being
      neither newer nor older; two tags tie exactly when they parse alike. */
  lemma NewerIsStrictWeakOrder(a: string, b: string, c: string)
    requires Parse(a).Some? && Parse(b).Some? && Parse(c).Some?
    ensures !IsNewer(a, a)
    ensures IsNewer(a, b) && IsNewer(b, c) ==> IsNewer(a, c)
    ensures !(IsNewer(a, b) && IsNewer(b, a))
    ensures !IsNewer(a, b) && !IsNewer(b, a) <==> Parse(a) == Parse(b)
    ensures !IsNewer(a, b) && !IsNewer(b, a) && !IsNewer(b, c) && !IsNewer(c, b) ==> !IsNewer(a, c) && !IsNewer(c, a)
  {
    var x, y, z := Parse(a).value, Parse(b).value, Parse(c).value;
    NewerByVersion(a, b);
    NewerByVersion(b, a);
    NewerByVersion(b, c);
    NewerByVersion(c, b);
    NewerByVersion(a, c);
    NewerByVersion(c, a);
    LessOrders(x, y, z);
    LessOrders(y, x, y);
    PartsIrreflexive(x.parts);
  }

  lemma LessOrders(x: Version, y: Version, z: Version)
    ensures Less(x, y) && Less(y, z) ==> Less(x, z)
    ensures Less(z, y) && Less(y, x) ==> Less(z, x)
    ensures !(Less(x, y) && Less(y, x))
    ensures Less(x, y) || Less(y, x) || x == y
  {
    PartsTotal(x.parts, y.parts);
    PartsIrreflexive(x.parts);
    if PartsLess(x.parts, y.parts) && PartsLess(y.parts, x.parts) {
      PartsTransitive(x.parts, y.parts, x.parts);
    }
    if PartsLess(x.parts, y.parts) && PartsLess(y.parts, z.parts) {
      PartsTransitive(x.parts, y.parts, z.parts);
    }
    if PartsLess(z.parts, y.parts) && PartsLess(y.parts, x.parts) {
      PartsTransitive(z.parts, y.parts, x.parts);
    }
  }

  /** Newer is one-sided on exactly the pairs that are one tag or both parse. */
  lemma OneSidedExactly(a: string, b: string)
    ensures !(IsNewer(a, b) && IsNewer(b, a)) <==> a == b || (Parse(a).Some? && Parse(b).Some?)
  {
    if Parse(a).Some? && Parse(b).Some? {
      LessOrders(Parse(a).value, Parse(b).value, Parse(a).value);
    }
  }

  // ---------------------------------------------------------------- prereleases

  /** A tag as releases are named: no white space at its ends, and no dash. */
  predicate FinalTag(t: string) {
    t != "" && !Space(t[0]) && !Space(t[|t| - 1]) && '-' !in t
  }

  lemma {:induction false} DropVBefore(t: string, rest: string)
    requires '-' !in t
    ensures DropV(t + "-" + rest) == DropV(t) + "-" + rest && '-' !in DropV(t)
  {
    if t == "" {
      assert t + "-" + rest == "-" + rest;
    } else if t[0] == 'v' {
      DropVBefore(t[1..], rest);
      assert (t + "-" + rest)[1..] == t[1..] + "-" + rest;
    }
  }

  lemma ParsesPrerelease(t: string, rest: string)
    requires FinalTag(t) && (rest == "" || !Space(rest[|rest| - 1])) && Parse(t).Some?
    ensures Parse(t).value.final
    ensures Parse(t + "-" + rest) == Some(Version(Parse(t).value.parts, false))
  {
    var pre := t + "-" + rest;
    assert pre[0] == t[0] && pre[|pre| - 1] == if rest == "" then '-' else rest[|rest| - 1];
    DropVBefore(t, rest);
    var d := DropV(t);
    assert d + "-" + rest == d + ['-'] + rest;
    Text.IndexOfAfter(d, '-', rest);
    assert Before(d + "-" + rest, '-') == d;
    assert (d + "-" + rest)[|d|] == '-';
    assert Before(d, '-') == d by {
      assert Text.IndexOf(d, '-') == |d|;
    }
    hide ParseNumbers;
  }

  /** A final release is newer than each of its prereleases, and never the other way round. */
  lemma FinalAbovePrerelease(t: string, rest: string)
    requires FinalTag(t) && (rest == "" || !Space(rest[|rest| - 1])) && Parse(t).Some?
    ensures IsNewer(t, t + "-" + rest) && !IsNewer(t + "-" + rest, t)
  {
    ParsesPrerelease(t, rest);
    NewerByVersion(t, t + "-" + rest);
    NewerByVersion(t + "-" + rest, t);
    PartsIrreflexive(Parse(t).value.parts);
  }

  /** Two prereleases of one release tie: neither is newer than the other. */
  lemma PrereleasesTie(t: string, one: string, two: string)
    requires FinalTag(t) && Parse(t).Some?
    requires (one == "" || !Space(one[|one| - 1])) && (two == "" || !Space(two[|two| - 1]))
    ensures !IsNewer(t + "-" + one, t + "-" + two)
  {
    ParsesPrerelease(t, one);
    ParsesPrerelease(t, two);
    NewerByVersion(t + "-" + one, t + "-" + two);
    PartsIrreflexive(Parse(t).value.parts);
  }

  // ---------------------------------------------------------------- the tags of final releases

  function Dotted(parts: seq<nat>): string
    requires parts != []
  {
    if |parts| == 1 then Text.Decimal(parts[0]) else Text.Decimal(parts[0]) + "." + Dotted(parts[1..])
  }

  predicate NumberText(s: string) { forall i :: 0 <= i < |s| ==> '0' <= s[i] <= '9' || s[i] == '.' }

  lemma {:induction false} DottedText(parts: seq<nat>)
    requires parts != []
    ensures NumberText(Dotted(parts)) && Dotted(parts) != "" && Dotted(parts)[0] != '.'
    ensures Dotted(parts)[|Dotted(parts)| - 1] != '.'
  {
    if |parts| > 1 {
      DottedText(parts[1..]);
    }
  }

  lemma ParsesDecimal(n: nat)
    requires n <= U64_MAX
    ensures ParsePart(Text.Decimal(n)) == Some(n)
  {
    Text.DecimalRoundTrip(n);
  }

  lemma SplitsFirst(head: string, tail: string)
    requires '.' !in head
    ensures Split(head + "." + tail) == [head] + Split(tail)
  {
    var s := head + "." + tail;
    assert s == head + ['.'] + tail;
    Text.IndexOfAfter(head, '.', tail);
    assert s[..|head|] == head && s[|head| + 1..] == tail;
  }

  lemma NoDot(n: nat)
    ensures '.' !in Text.Decimal(n) && Split(Text.Decimal(n)) == [Text.Decimal(n)]
  {
    var s := Text.Decimal(n);
    assert forall i :: 0 <= i < |s| ==> s[i] != '.';
  }

  predicate Numbers(parts: seq<nat>) {
    parts != [] && forall i :: 0 <= i < |parts| ==> parts[i] <= U64_MAX
  }

  lemma {:induction false} DottedRoundTrip(parts: seq<nat>)
    requires Numbers(parts)
    ensures ParseParts(Split(Dotted(parts))) == Some(parts)
  {
    hide ParsePart, Split, Text.Decimal;
    var head := Text.Decimal(parts[0]);
    ParsesDecimal(parts[0]);
    NoDot(parts[0]);
    assert parts == [parts[0]] + parts[1..];
    if |parts| == 1 {
      assert [head][1..] == [];
    } else {
      DottedRoundTrip(parts[1..]);
      SplitsFirst(head, Dotted(parts[1..]));
      assert ([head] + Split(Dotted(parts[1..])))[1..] == Split(Dotted(parts[1..]));
    }
  }

  lemma NoneOf(s: string, c: char)
    requires NumberText(s) && c != '.' && !('0' <= c <= '9')
    ensures Before(s, c) == s && c !in s
  {
  }

  lemma StripsV(s: string)
    requires s != "" && s[0] != 'v' && !Space(s[|s| - 1])
    ensures DropV(TrimEnd(TrimStart("v" + s))) == s
  {
    var t := "v" + s;
    assert t[|t| - 1] == s[|s| - 1];
    assert TrimStart(t) == t && TrimEnd(t) == t;
    assert t[1..] == s;
  }

  /** The tag of a final release parses to its numbers, so newer compares the numbers. */
  lemma TagRoundTrip(parts: seq<nat>)
    requires Numbers(parts)
    ensures Parse("v" + Dotted(parts)) == Some(Version(parts, true))
  {
    var s := Dotted(parts);
    DottedText(parts);
    DottedRoundTrip(parts);
    StripsV(s);
    NoneOf(s, '-');
    NoneOf(s, '+');
    hide Split, ParseParts, TrimStart, TrimEnd, DropV, Dotted;
  }

  /** For final releases newer goes by the numbers, not by the text of the tags. */
  lemma {:induction false} NumbersDecide(a: seq<nat>, b: seq<nat>)
    requires Numbers(a) && Numbers(b)
    ensures IsNewer("v" + Dotted(a), "v" + Dotted(b)) <==> PartsLess(b, a)
  {
    TagRoundTrip(a);
    TagRoundTrip(b);
    NewerByVersion("v" + Dotted(a), "v" + Dotted(b));
  }

  // ---------------------------------------------------------------- what is read from a tag

  /** White space around a tag does not matter. */
  lemma {:induction false} LeadingSpace(s: string, c: char)
    requires Space(c)
    ensures TrimStart([c] + s) == TrimStart(s) && TrimEnd(s + [c]) == TrimEnd(s)
  {
    assert ([c] + s)[1..] == s && (s + [c])[..|s|] == s;
  }

  /** A part is a decimal number that fits 64 bits. */
  lemma PartExactly(s: string, n: nat)
    ensures ParsePart(s) == Some(n) <==> Text.Digits(s) && Text.ParseDecimal(s) == n && n <= 18446744073709551615
  {
  }
}
