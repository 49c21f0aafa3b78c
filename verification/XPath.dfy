/** The XPath an element is described by: its printer, and what XPath 1.0 makes of the text. */
module XPath {
  import opened Wrappers
  import Text

  /** An element is named by its address, the child numbers from the document down to it.
      `lower` is the lowercasing of tag names, of which nothing is assumed. */
  datatype Node = Node(tag: string, id: string, children: seq<Node>)

  type Address = seq<nat>

  /** One child step, `name[index]`. */
  datatype Step = Step(name: string, index: nat)

  type Lower = string -> string

  // ---------------------------------------------------------------- the tree

  predicate Names(top: seq<Node>, a: Address) {
    a == [] || (a[0] < |top| && Names(top[a[0]].children, a[1..]))
  }

  /** The elements beside the one at `a`. */
  function Siblings(top: seq<Node>, a: Address): seq<Node>
    requires a != [] && Names(top, a)
  {
    if |a| == 1 then top else Siblings(top[a[0]].children, a[1..])
  }

  lemma {:induction false} SiblingsHold(top: seq<Node>, a: Address)
    requires a != [] && Names(top, a)
    ensures a[|a| - 1] < |Siblings(top, a)|
  {
    if |a| > 1 {
      SiblingsHold(top[a[0]].children, a[1..]);
    }
  }

  function At(top: seq<Node>, a: Address): Node
    requires a != [] && Names(top, a)
  {
    SiblingsHold(top, a);
    Siblings(top, a)[a[|a| - 1]]
  }

  lemma {:induction false} NamesParent(top: seq<Node>, a: Address)
    requires a != [] && Names(top, a)
    ensures Names(top, a[..|a| - 1])
  {
    if |a| > 1 {
      NamesParent(top[a[0]].children, a[1..]);
      assert a[..|a| - 1][1..] == a[1..][..|a| - 2];
    }
  }

  /** How many of the first `k` elements have the raw tag. */
  function SameTag(siblings: seq<Node>, k: nat, tag: string): nat
    requires k <= |siblings|
  {
    if k == 0 then 0 else SameTag(siblings, k - 1, tag) + if siblings[k - 1].tag == tag then 1 else 0
  }

  // ---------------------------------------------------------------- what XPath selects

  /** How many of the first `k` elements a name test passes. */
  function Matching(siblings: seq<Node>, k: nat, name: string, lower: Lower): nat
    requires k <= |siblings|
  {
    if k == 0 then 0 else Matching(siblings, k - 1, name, lower) + if lower(siblings[k - 1].tag) == name then 1 else 0
  }

  /** `/s1/s2/...` selects an address when each of its numbers is the `index`-th child its step
      names (XPath 1.0, section 2.4). */
  predicate Selects(top: seq<Node>, steps: seq<Step>, a: Address, lower: Lower) {
    if steps == [] || a == [] then steps == [] && a == []
    else
      && a[0] < |top| && lower(top[a[0]].tag) == steps[0].name
      && Matching(top, a[0], steps[0].name, lower) + 1 == steps[0].index
      && Selects(top[a[0]].children, steps[1..], a[1..], lower)
  }

  // ---------------------------------------------------------------- what is printed

  function StepOf(siblings: seq<Node>, k: nat, lower: Lower): Step
    requires k < |siblings|
  {
    Step(lower(siblings[k].tag), SameTag(siblings, k, siblings[k].tag) + 1)
  }

  function Steps(top: seq<Node>, a: Address, lower: Lower): seq<Step>
    requires Names(top, a)
  {
    if a == [] then [] else [StepOf(top, a[0], lower)] + Steps(top[a[0]].children, a[1..], lower)
  }

  /** No earlier sibling differs in its tag and not in its lowercase tag. */
  predicate Plain(siblings: seq<Node>, k: nat, lower: Lower)
    requires k < |siblings|
  {
    forall j :: 0 <= j < k && lower(siblings[j].tag) == lower(siblings[k].tag) ==> siblings[j].tag == siblings[k].tag
  }

  predicate Unambiguous(top: seq<Node>, a: Address, lower: Lower)
    requires Names(top, a)
  {
    a == [] || (Plain(top, a[0], lower) && Unambiguous(top[a[0]].children, a[1..], lower))
  }

  lemma {:induction false} CountsAgree(siblings: seq<Node>, k: nat, tag: string, lower: Lower)
    requires k <= |siblings|
    ensures SameTag(siblings, k, tag) <= Matching(siblings, k, lower(tag), lower)
    ensures SameTag(siblings, k, tag) == Matching(siblings, k, lower(tag), lower)
        <==> forall j :: 0 <= j < k && lower(siblings[j].tag) == lower(tag) ==> siblings[j].tag == tag
  {
    if k > 0 {
      CountsAgree(siblings, k - 1, tag, lower);
    }
  }

  lemma {:induction false} MatchingGrows(siblings: seq<Node>, j: nat, k: nat, name: string, lower: Lower)
    requires j < k <= |siblings| && lower(siblings[j].tag) == name
    ensures Matching(siblings, j, name, lower) < Matching(siblings, k, name, lower)
  {
    if j < k - 1 {
      MatchingGrows(siblings, j, k - 1, name, lower);
    }
  }

  /** A path selects one element at most. */
  lemma {:induction false} SelectsOne(top: seq<Node>, steps: seq<Step>, a: Address, b: Address, lower: Lower)
    requires Selects(top, steps, a, lower) && Selects(top, steps, b, lower)
    ensures a == b
  {
    if a != [] {
      if a[0] < b[0] {
        MatchingGrows(top, a[0], b[0], steps[0].name, lower);
      } else if b[0] < a[0] {
        MatchingGrows(top, b[0], a[0], steps[0].name, lower);
      } else {
        SelectsOne(top[a[0]].children, steps[1..], a[1..], b[1..], lower);
        assert a == [a[0]] + a[1..] && b == [b[0]] + b[1..];
      }
    }
  }

  /** The printed steps select exactly their element, in any tree, precisely when no earlier
      sibling on the way differs from it in the case of its tag only. */
  lemma {:induction false} PathSelectsItsElement(top: seq<Node>, a: Address, lower: Lower)
    requires Names(top, a)
    ensures (forall b :: Selects(top, Steps(top, a, lower), b, lower) <==> b == a) <==> Unambiguous(top, a, lower)
  {
    SelectsOwn(top, a, lower);
    var steps := Steps(top, a, lower);
    if Selects(top, steps, a, lower) {
      forall b | Selects(top, steps, b, lower)
        ensures b == a
      {
        SelectsOne(top, steps, a, b, lower);
      }
    }
  }

  lemma {:induction false} SelectsOwn(top: seq<Node>, a: Address, lower: Lower)
    requires Names(top, a)
    ensures Selects(top, Steps(top, a, lower), a, lower) <==> Unambiguous(top, a, lower)
  {
    if a != [] {
      CountsAgree(top, a[0], top[a[0]].tag, lower);
      SelectsOwn(top[a[0]].children, a[1..], lower);
      assert Steps(top, a, lower)[1..] == Steps(top[a[0]].children, a[1..], lower);
    }
  }

  /** Where the condition fails the path is not merely ambiguous: two siblings `A` and `a` print
      two paths that both read as the first `a`. */
  lemma CaseOnlySiblingsMisread(lower: Lower)
    requires lower("A") == "a" && lower("a") == "a"
    ensures var top := [Node("A", "", []), Node("a", "", [])];
      && Steps(top, [1], lower) == [Step("a", 1)] && Selects(top, Steps(top, [1], lower), [0], lower)
      && !Selects(top, Steps(top, [1], lower), [1], lower)
  {
    var top := [Node("A", "", []), Node("a", "", [])];
    assert SameTag(top, 1, "a") == 0 && Matching(top, 0, "a", lower) == 0;
    assert Steps(top, [1], lower) == [StepOf(top, 1, lower)] + Steps([], [], lower);
    assert Matching(top, 1, "a", lower) == 1;
  }

  // ---------------------------------------------------------------- the text of a path

  function StepText(s: Step): string { s.name + "[" + Text.Decimal(s.index) + "]" }

  function PathText(steps: seq<Step>): string {
    if steps == [] then "" else "/" + StepText(steps[0]) + PathText(steps[1..])
  }

  /** `name[digits]`, up to the next slash. */
  function ParseStep(s: string): Option<Step> {
    var i := Text.IndexOf(s, '[');
    if i + 2 >= |s| || s[|s| - 1] != ']' || !Text.Digits(s[i + 1..|s| - 1]) then None
    else Some(Step(s[..i], Text.ParseDecimal(s[i + 1..|s| - 1])))
  }

  function ParsePath(s: string): Option<seq<Step>>
    decreases |s|
  {
    if s == "" then Some([])
    else if s[0] != '/' then None
    else
      var j := Text.IndexOf(s[1..], '/');
      var first, rest := ParseStep(s[1..][..j]), ParsePath(s[1..][j..]);
      if first.None? || rest.None? then None else Some([first.value] + rest.value)
  }

  predicate Printable(steps: seq<Step>) {
    forall k :: 0 <= k < |steps| ==> '/' !in steps[k].name && '[' !in steps[k].name
  }

  lemma ParseStepText(s: Step)
    requires '[' !in s.name
    ensures ParseStep(StepText(s)) == Some(s)
  {
    var digits := Text.Decimal(s.index);
    var text := StepText(s);
    assert text == s.name + ['['] + (digits + "]");
    Text.IndexOfAfter(s.name, '[', digits + "]");
    assert text[|s.name| + 1..|text| - 1] == digits && text[..|s.name|] == s.name;
    Text.DecimalRoundTrip(s.index);
  }

  lemma NoSlash(s: Step)
    requires '/' !in s.name
    ensures '/' !in StepText(s)
  {
    var digits := Text.Decimal(s.index);
    assert forall i :: 0 <= i < |digits| ==> digits[i] != '/';
  }

  lemma HeadEnds(head: string, tail: string)
    requires '/' !in head && (tail == "" || tail[0] == '/')
    ensures Text.IndexOf(head + tail, '/') == |head|
  {
    if tail == "" {
      assert head + tail == head;
    } else {
      assert head + tail == head + ['/'] + tail[1..];
      Text.IndexOfAfter(head, '/', tail[1..]);
    }
  }

  lemma ParsesOn(s: string, head: string, tail: string)
    requires s != "" && s[0] == '/' && s[1..] == head + tail && Text.IndexOf(head + tail, '/') == |head|
    requires ParseStep(head).Some? && ParsePath(tail).Some?
    ensures ParsePath(s) == Some([ParseStep(head).value] + ParsePath(tail).value)
  {
    hide ParseStep, Text.IndexOf;
    assert s[1..][..|head|] == head && s[1..][|head|..] == tail;
  }

  lemma SlashFirst(head: string, tail: string)
    ensures var s := "/" + head + tail;
      s[0] == '/' && s[1..] == head + tail
  {
  }

  lemma TextHead(steps: seq<Step>)
    ensures PathText(steps) == "" || PathText(steps)[0] == '/'
  {
  }

  lemma StepParses(s: Step, tail: string)
    requires '/' !in s.name && '[' !in s.name && (tail == "" || tail[0] == '/') && ParsePath(tail).Some?
    ensures ParsePath("/" + StepText(s) + tail) == Some([s] + ParsePath(tail).value)
  {
    hide ParsePath, ParseStep, StepText, Text.IndexOf;
    ParseStepText(s);
    NoSlash(s);
    HeadEnds(StepText(s), tail);
    SlashFirst(StepText(s), tail);
    ParsesOn("/" + StepText(s) + tail, StepText(s), tail);
  }

  lemma StepReadsBack(steps: seq<Step>)
    requires steps != [] && Printable(steps) && ParsePath(PathText(steps[1..])) == Some(steps[1..])
    ensures ParsePath(PathText(steps)) == Some(steps)
  {
    hide ParsePath, StepText;
    TextHead(steps[1..]);
    StepParses(steps[0], PathText(steps[1..]));
    assert steps == [steps[0]] + steps[1..];
  }

  /** The text of a path reads back as its steps. */
  lemma {:induction false} PathRoundTrip(steps: seq<Step>)
    requires Printable(steps)
    ensures ParsePath(PathText(steps)) == Some(steps)
  {
    if steps != [] {
      PathRoundTrip(steps[1..]);
      StepReadsBack(steps);
    }
  }

  /** Two elements of a tree never share a path. */
  lemma DistinctElementsDiffer(top: seq<Node>, a: Address, b: Address, lower: Lower)
    requires Names(top, a) && Names(top, b) && Unambiguous(top, a, lower) && Unambiguous(top, b, lower)
    requires Printable(Steps(top, a, lower)) && Printable(Steps(top, b, lower))
    ensures PathText(Steps(top, a, lower)) == PathText(Steps(top, b, lower)) ==> a == b
  {
    PathRoundTrip(Steps(top, a, lower));
    PathRoundTrip(Steps(top, b, lower));
    SelectsOwn(top, a, lower);
    SelectsOwn(top, b, lower);
    if PathText(Steps(top, a, lower)) == PathText(Steps(top, b, lower)) {
      SelectsOne(top, Steps(top, a, lower), a, b, lower);
    }
  }

  // ---------------------------------------------------------------- string literals

  const SPLICE := "\", '\"', \""

  /** Every double quote spelled as the end of one argument, a quoted quote, and the next. */
  function Spliced(s: string): string {
    if s == "" then "" else (if s[0] == '"' then SPLICE else [s[0]]) + Spliced(s[1..])
  }

  function XPathStringLiteral(s: string): string {
    if '"' !in s then "\"" + s + "\""
    else if '\'' !in s then "'" + s + "'"
    else "concat(\"" + Spliced(s) + "\")"
  }

  datatype Read = Read(value: string, rest: string)

  /** A Literal of XPath 1.0, section 3.7: anything but its quote, between two of them. */
  function ReadLiteral(s: string): (r: Option<Read>)
    ensures r.Some? ==> |r.value.rest| < |s|
  {
    if s == "" || (s[0] != '"' && s[0] != '\'') then None
    else
      var j := Text.IndexOf(s[1..], s[0]);
      if j == |s[1..]| then None else Some(Read(s[1..][..j], s[1..][j + 1..]))
  }

  function SkipSpaces(s: string): (r: string)
    ensures |r| <= |s|
  {
    if s != "" && s[0] == ' ' then SkipSpaces(s[1..]) else s
  }

  /** The literals of an argument list, to the closing parenthesis that ends the text. */
  function ReadArguments(s: string): Option<seq<string>>
    decreases |s|
  {
    var first := ReadLiteral(s);
    if first.None? || first.value.rest == "" then None
    else if first.value.rest == ")" then Some([first.value.value])
    else if first.value.rest[0] != ',' then None
    else
      var more := ReadArguments(SkipSpaces(first.value.rest[1..]));
      if more.None? then None else Some([first.value.value] + more.value)
  }

  function Joined(parts: seq<string>): string { if parts == [] then "" else parts[0] + Joined(parts[1..]) }

  /** The string an expression stands for: a literal, or `concat` of two literals or more
      (XPath 1.0, section 4.2). */
  function Value(s: string): Option<string> {
    if "concat(" <= s then
      var arguments := ReadArguments(s[7..]);
      if arguments.None? || |arguments.value| < 2 then None else Some(Joined(arguments.value))
    else
      var literal := ReadLiteral(s);
      if literal.None? || literal.value.rest != "" then None else Some(literal.value.value)
  }

  lemma ReadsLiteral(quote: char, s: string, rest: string)
    requires quote in {'"', '\''} && quote !in s
    ensures ReadLiteral([quote] + s + [quote] + rest) == Some(Read(s, rest))
  {
    var text := [quote] + s + [quote] + rest;
    assert text[1..] == s + [quote] + rest;
    Text.IndexOfAfter(s, quote, rest);
    assert text[1..][..|s|] == s && text[1..][|s| + 1..] == rest;
  }

  lemma {:induction false} SplicedAt(a: string, b: string)
    requires '"' !in a
    ensures Spliced(a + ['"'] + b) == a + SPLICE + Spliced(b)
  {
    var s := a + ['"'] + b;
    if a == "" {
      assert s == ['"'] + b && s[1..] == b;
    } else {
      SplicedAt(a[1..], b);
      assert s[1..] == a[1..] + ['"'] + b && s[0] == a[0];
      assert a == [a[0]] + a[1..];
      assert [a[0]] + (a[1..] + SPLICE + Spliced(b)) == a + SPLICE + Spliced(b);
    }
  }

  lemma {:induction false} SplicedPlain(s: string)
    requires '"' !in s
    ensures Spliced(s) == s
  {
    if s != "" {
      SplicedPlain(s[1..]);
    }
  }

  lemma SkipsOne(more: string)
    requires more != "" && more[0] != ' '
    ensures SkipSpaces(" " + more) == more
  {
    assert (" " + more)[1..] == more;
  }

  lemma ReadsOn(s: string, first: Read, more: string)
    requires ReadLiteral(s) == Some(first) && |first.rest| > 1 && first.rest[0] == ','
    requires SkipSpaces(first.rest[1..]) == more && ReadArguments(more).Some?
    ensures ReadArguments(s) == Some([first.value] + ReadArguments(more).value)
  {
    hide ReadLiteral, SkipSpaces;
    assert first.rest != ")";
  }

  lemma CommaFirst(more: string)
    ensures (", " + more)[0] == ',' && (", " + more)[1..] == " " + more
  {
  }

  lemma ReadsArgument(quote: char, s: string, more: string)
    requires quote in {'"', '\''} && quote !in s
    requires more != "" && more[0] != ' ' && ReadArguments(more).Some?
    ensures ReadArguments([quote] + s + [quote] + (", " + more)) == Some([s] + ReadArguments(more).value)
  {
    hide ReadArguments, ReadLiteral, SkipSpaces;
    ReadsLiteral(quote, s, ", " + more);
    CommaFirst(more);
    SkipsOne(more);
    ReadsOn([quote] + s + [quote] + (", " + more), Read(s, ", " + more), more);
  }

  function Tail(s: string): string { "\"" + Spliced(s) + "\")" }

  function Middle(b: string): string { ['\''] + "\"" + ['\''] + (", " + Tail(b)) }

  lemma Regroup(q: string, a: string, c: string, m: string, t: string, e: string)
    ensures q + (a + (q + (c + (m + (c + q)))) + t) + e == q + a + q + (c + (m + (c + (q + t + e))))
  {
  }

  lemma TailSpliced(a: string, b: string)
    requires '"' !in a
    ensures Tail(a + ['"'] + b) == ['"'] + a + ['"'] + (", " + Middle(b))
  {
    SplicedAt(a, b);
    assert SPLICE == ['"'] + (", " + ("'\"'" + (", " + ['"'])));
    assert "'\"'" == ['\''] + "\"" + ['\''];
    Regroup("\"", a, ", ", "'\"'", Spliced(b), "\")");
    hide Spliced;
  }

  lemma ReadsSplice(a: string, b: string)
    requires '"' !in a && ReadArguments(Tail(b)).Some?
    ensures ReadArguments(Tail(a + ['"'] + b)) == Some([a] + (["\""] + ReadArguments(Tail(b)).value))
  {
    assert Tail(b)[0] == '"' && Middle(b)[0] == '\'';
    hide ReadArguments;
    ReadsArgument('\'', "\"", Tail(b));
    ReadsArgument('"', a, Middle(b));
    TailSpliced(a, b);
  }

  lemma JoinedTwo(a: string, b: string, rest: seq<string>)
    ensures Joined([a] + ([b] + rest)) == a + (b + Joined(rest))
  {
    assert ([a] + ([b] + rest))[1..] == [b] + rest && ([b] + rest)[1..] == rest;
  }

  lemma ReadsPlain(s: string)
    requires '"' !in s
    ensures ReadArguments(Tail(s)) == Some([s]) && Joined([s]) == s
  {
    SplicedPlain(s);
    ReadsLiteral('"', s, ")");
    assert Tail(s) == ['"'] + s + ['"'] + ")";
    assert Joined([s]) == s + Joined([]);
  }

  lemma {:induction false} ReadsSpliced(s: string)
    ensures var read := ReadArguments(Tail(s));
      read.Some? && Joined(read.value) == s && |read.value| >= (if '"' in s then 3 else 1)
    decreases |s|
  {
    hide ReadArguments, Tail, Spliced, Joined;
    var j := Text.IndexOf(s, '"');
    if j == |s| {
      assert s[..j] == s;
      ReadsPlain(s);
    } else {
      var a, b := s[..j], s[j + 1..];
      assert s == a + ['"'] + b;
      ReadsSpliced(b);
      ReadsSplice(a, b);
      JoinedTwo(a, "\"", ReadArguments(Tail(b)).value);
    }
  }

  lemma QuotedMeans(quote: char, s: string)
    requires quote in {'"', '\''} && quote !in s
    ensures Value([quote] + s + [quote]) == Some(s)
  {
    var text := [quote] + s + [quote];
    ReadsLiteral(quote, s, "");
    hide ReadArguments, ReadLiteral, Joined;
    assert text == text + "";
    assert text[0] != "concat("[0];
  }

  /** The literal of a string stands for that string, whatever quotes it has. */
  lemma LiteralMeansItsString(s: string)
    ensures Value(XPathStringLiteral(s)) == Some(s)
  {
    if '"' !in s {
      QuotedMeans('"', s);
    } else if '\'' !in s {
      QuotedMeans('\'', s);
    } else {
      SplicedMeans(s);
    }
  }

  lemma SplicedMeans(s: string)
    requires '"' in s
    ensures Value("concat(\"" + Spliced(s) + "\")") == Some(s)
  {
    hide ReadArguments, Joined, Spliced, Text.IndexOf;
    var text := "concat(\"" + Spliced(s) + "\")";
    ReadsSpliced(s);
    assert text[7..] == Tail(s);
    assert "concat(" <= text;
  }

  /** The elements a path by id selects are those that have that id. */
  predicate IdPathSelects(top: seq<Node>, path: string, a: Address) {
    && a != [] && Names(top, a)
    && "//*[@id=" <= path && path[|path| - 1] == ']'
    && Value(path[8..|path| - 1]) == Some(At(top, a).id)
  }

  // ---------------------------------------------------------------- the printer

  lemma {:induction false} StepsExtend(top: seq<Node>, a: Address, lower: Lower)
    requires a != [] && Names(top, a)
    ensures Names(top, a[..|a| - 1]) && a[|a| - 1] < |Siblings(top, a)|
    ensures Steps(top, a, lower) == Steps(top, a[..|a| - 1], lower) + [StepOf(Siblings(top, a), a[|a| - 1], lower)]
  {
    NamesParent(top, a);
    SiblingsHold(top, a);
    if |a| > 1 {
      StepsExtend(top[a[0]].children, a[1..], lower);
      assert a[..|a| - 1][1..] == a[1..][..|a| - 2];
    }
  }

  lemma {:induction false} LastText(before: seq<Step>, last: Step)
    ensures PathText(before + [last]) == PathText(before) + ("/" + StepText(last))
  {
    hide StepText;
    var all := before + [last];
    if before == [] {
      assert all[1..] == [];
    } else {
      LastText(before[1..], last);
      assert all[1..] == before[1..] + [last] && all[0] == before[0];
    }
  }

  /** The path by an id selects the elements that have it. */
  lemma IdPathMeansId(top: seq<Node>, id: string)
    ensures forall b :: b != [] && Names(top, b) ==>
              (IdPathSelects(top, "//*[@id=" + XPathStringLiteral(id) + "]", b) <==> At(top, b).id == id)
  {
    var path := "//*[@id=" + XPathStringLiteral(id) + "]";
    LiteralMeansItsString(id);
    hide XPathStringLiteral, Value;
    assert path[8..|path| - 1] == XPathStringLiteral(id);
  }

  method IndexAmongSiblings(siblings: seq<Node>, place: nat) returns (index: nat)
    requires place < |siblings|
    ensures index == SameTag(siblings, place, siblings[place].tag) + 1
  {
    var tag := siblings[place].tag;
    var sibling := place;
    index := 1;
    while sibling > 0
      invariant sibling <= place
      invariant index + SameTag(siblings, sibling, tag) == SameTag(siblings, place, tag) + 1
    {
      sibling := sibling - 1;
      if siblings[sibling].tag == tag {
        index := index + 1;
      }
    }
  }

  /** Walks from the element to the document, counting the siblings before each. */
  method PathByTags(top: seq<Node>, element: Address, lower: Lower) returns (path: string)
    requires Names(top, element)
    ensures path == PathText(Steps(top, element, lower))
  {
    hide StepText, Siblings, SameTag, Steps, PathText;
    var current := element;
    path := "";
    assert PathText(Steps(top, current, lower)) + path == PathText(Steps(top, element, lower));
    while current != []
      invariant Names(top, current)
      invariant PathText(Steps(top, current, lower)) + path == PathText(Steps(top, element, lower))
      decreases |current|
    {
      StepsExtend(top, current, lower);
      var siblings, place := Siblings(top, current), current[|current| - 1];
      var index := IndexAmongSiblings(siblings, place);
      var segment := "/" + StepText(Step(lower(siblings[place].tag), index));
      assert StepOf(siblings, place, lower) == Step(lower(siblings[place].tag), index);
      LastText(Steps(top, current[..|current| - 1], lower), StepOf(siblings, place, lower));
      Moved(PathText(Steps(top, current[..|current| - 1], lower)), segment, path);
      path := segment + path;
      current := current[..|current| - 1];
    }
    NoSteps(top, lower);
  }

  lemma Moved(a: string, b: string, c: string)
    ensures (a + b) + c == a + (b + c)
  {
  }

  lemma NoSteps(top: seq<Node>, lower: Lower)
    ensures PathText(Steps(top, [], lower)) == ""
  {
  }

  /** The path of an element: by its id, or by tags and places. */
  method ElementXPath(top: seq<Node>, element: Address, lower: Lower) returns (path: string)
    requires element != [] && Names(top, element)
    ensures At(top, element).id == "" ==> path == PathText(Steps(top, element, lower))
    ensures At(top, element).id != "" ==>
              forall b :: b != [] && Names(top, b) ==>
                (IdPathSelects(top, path, b) <==> At(top, b).id == At(top, element).id)
  {
    var id := At(top, element).id;
    if id != "" {
      path := "//*[@id=" + XPathStringLiteral(id) + "]";
      IdPathMeansId(top, id);
    } else {
      path := PathByTags(top, element, lower);
    }
  }
}
