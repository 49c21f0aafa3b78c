/** The record list: pages of native claims below an exclusive sequence bound, cut short by a
    byte budget, and the shortening that keeps every record within it. */
module RecordPages {
  import opened Wrappers

  const RESPONSE_BUDGET := 262_144
  const ENVELOPE := 1024
  const RECORD_LIMIT := 131_072
  const QUOTE_CHARS := 256
  const U64_MAX := 0xffff_ffff_ffff_ffff

  // ---------------------------------------------------------------- shortening a record

  /** `rest` is the JSON size of everything but the quotes; each character has its own. */
  datatype Quote = Quote(reference: string, text: Option<string>, truncated: bool)
  datatype Record = Record(id: string, labels: string, quotes: seq<Quote>, rest: nat)

  type Cost = char -> nat

  function TextSize(text: string, cost: Cost): nat {
    if text == "" then 0 else TextSize(text[..|text| - 1], cost) + cost(text[|text| - 1])
  }

  function QuoteSize(q: Quote, cost: Cost): nat { if q.text.None? then 0 else TextSize(q.text.value, cost) }

  function QuotesSize(quotes: seq<Quote>, cost: Cost): nat {
    if quotes == [] then 0 else QuotesSize(quotes[..|quotes| - 1], cost) + QuoteSize(quotes[|quotes| - 1], cost)
  }

  function Size(r: Record, cost: Cost): nat { r.rest + QuotesSize(r.quotes, cost) }

  function Cut(q: Quote): Quote {
    if q.text.Some? && |q.text.value| > QUOTE_CHARS then Quote(q.reference, Some(q.text.value[..QUOTE_CHARS]), true) else q
  }

  function CutAll(quotes: seq<Quote>): (cut: seq<Quote>)
    ensures |cut| == |quotes| && forall i :: 0 <= i < |quotes| ==> cut[i] == Cut(quotes[i])
  {
    if quotes == [] then [] else CutAll(quotes[..|quotes| - 1]) + [Cut(quotes[|quotes| - 1])]
  }

  /** The record as it is displayed: whole when it is small enough, else with its quotes cut. */
  function Displayed(r: Record, cost: Cost): Record {
    if Size(r, cost) <= RECORD_LIMIT then r
    else r.(quotes := CutAll(r.quotes))
  }

  /** What shortening may take from a quote: its end, and then it says so. */
  predicate Shortens(q: Quote, q': Quote) {
    && q'.reference == q.reference && (q.text.Some? <==> q'.text.Some?)
    && (q.text.Some? ==> q'.text.value <= q.text.value)
    && (q' != q ==> q'.truncated && q'.text.Some? && |q'.text.value| == QUOTE_CHARS)
  }

  lemma {:induction false} TextShrinks(text: string, k: nat, cost: Cost)
    requires k <= |text|
    ensures TextSize(text[..k], cost) <= TextSize(text, cost)
    decreases |text|
  {
    if k < |text| {
      TextShrinks(text[..|text| - 1], k, cost);
      assert text[..|text| - 1][..k] == text[..k];
    } else {
      assert text[..k] == text;
    }
  }

  lemma {:induction false} QuotesShrink(quotes: seq<Quote>, cost: Cost)
    ensures QuotesSize(CutAll(quotes), cost) <= QuotesSize(quotes, cost)
  {
    if quotes != [] {
      var before, last := quotes[..|quotes| - 1], quotes[|quotes| - 1];
      QuotesShrink(before, cost);
      assert CutAll(quotes)[..|quotes| - 1] == CutAll(before);
      if last.text.Some? && |last.text.value| > QUOTE_CHARS {
        TextShrinks(last.text.value, QUOTE_CHARS, cost);
      }
    }
  }

  /** A displayed record keeps its identity, its labels and every source reference; only ends
      of quotes are taken, it never grows, and displaying it again changes nothing. */
  lemma DisplayKeepsIdentity(r: Record, cost: Cost)
    ensures var r' := Displayed(r, cost);
      && r'.id == r.id && r'.labels == r.labels && |r'.quotes| == |r.quotes| && Size(r', cost) <= Size(r, cost)
      && (forall i :: 0 <= i < |r.quotes| ==> Shortens(r.quotes[i], r'.quotes[i]))
      && Displayed(r', cost) == r'
  {
    QuotesShrink(r.quotes, cost);
    var r' := Displayed(r, cost);
    assert Displayed(r', cost).quotes == r'.quotes;
  }

  /** A quote of more than 256 characters keeps its first 256 and is marked; another stays. */
  predicate CutTo256(q: Quote, q': Quote) {
    if q.text.None? || |q.text.value| <= 256 then q' == q
    else
      q'.reference == q.reference && q'.truncated && q'.text.Some? && |q'.text.value| == 256 && q'.text.value <= q.text.value
  }

  /** A record of at most 131072 bytes is displayed whole; of a larger one every quote is cut. */
  lemma DisplayExactly(r: Record, cost: Cost)
    ensures var r' := Displayed(r, cost);
      && (Size(r, cost) <= 131_072 ==> r' == r)
      && (Size(r, cost) > 131_072 ==>
            |r'.quotes| == |r.quotes| && forall i :: 0 <= i < |r.quotes| ==> CutTo256(r.quotes[i], r'.quotes[i]))
  {
  }

  /** Measures, cuts the quotes in place if it must, and measures again. */
  method CompactDisplay(record: Record, cost: Cost) returns (size: Option<nat>, shown: Record)
    ensures shown == Displayed(record, cost)
    ensures size == if Size(shown, cost) <= RECORD_LIMIT then Some(Size(shown, cost)) else None
  {
    shown := record;
    if Size(record, cost) <= RECORD_LIMIT {
      return Some(Size(record, cost)), record;
    }
    for k := 0 to |record.quotes|
      invariant shown.id == record.id && shown.labels == record.labels && shown.rest == record.rest
      invariant |shown.quotes| == |record.quotes|
      invariant forall i :: 0 <= i < |record.quotes| ==> shown.quotes[i] == if i < k then Cut(record.quotes[i]) else record.quotes[i]
    {
      var q := shown.quotes[k];
      if q.text.Some? && |q.text.value| > QUOTE_CHARS {
        shown := shown.(quotes := shown.quotes[k := q.(text := Some(q.text.value[..QUOTE_CHARS]), truncated := true)]);
      }
    }
    assert shown.quotes == Displayed(record, cost).quotes;
    size := if Size(shown, cost) > RECORD_LIMIT then None else Some(Size(shown, cost));
  }

  // ---------------------------------------------------------------- pages of records

  /** What becomes of a row: nothing to show, a record of some displayed size whose own sources
      are complete or not, or an error. */
  datatype Verdict = Hidden | Visible(size: nat, sourced: bool) | Broken

  datatype Row = Row(number: nat, verdict: Verdict)

  /** Native claims come newest first, under distinct u64 numbers; a displayed record fits. */
  predicate Listed(rows: seq<Row>) {
    && (forall i :: 0 <= i < |rows| ==> rows[i].number <= U64_MAX)
    && (forall i, j :: 0 <= i < j < |rows| ==> rows[j].number < rows[i].number)
    && (forall i :: 0 <= i < |rows| && rows[i].verdict.Visible? ==> rows[i].verdict.size <= RECORD_LIMIT)
  }

  /** A cursor is an exclusive bound: the place of the first row below it. */
  function Place(rows: seq<Row>, cursor: Option<nat>): (i: nat)
    ensures i <= |rows|
  {
    if cursor.None? || rows == [] || rows[0].number < cursor.value then 0 else 1 + Place(rows[1..], cursor)
  }

  lemma {:induction false} PlaceIs(rows: seq<Row>, bound: nat, i: nat)
    requires Listed(rows) && i <= |rows|
    requires forall k :: 0 <= k < i ==> rows[k].number >= bound
    requires i < |rows| ==> rows[i].number < bound
    ensures Place(rows, Some(bound)) == i
  {
    if i > 0 {
      PlaceIs(rows[1..], bound, i - 1);
    }
  }

  function Visibles(rows: seq<Row>): seq<Row> {
    if rows == [] then []
    else Visibles(rows[..|rows| - 1]) + if rows[|rows| - 1].verdict.Visible? then [rows[|rows| - 1]] else []
  }

  function Bytes(rows: seq<Row>): nat {
    if rows == [] then ENVELOPE
    else Bytes(rows[..|rows| - 1]) + (if rows[|rows| - 1].verdict.Visible? then rows[|rows| - 1].verdict.size + 1 else 0)
  }

  datatype End = Done | Limited | Failed

  /** Where one request over `rows[from..upTo]` stops, standing at `at`, and why. */
  function Stop(rows: seq<Row>, from: nat, at: nat, upTo: nat): (r: (nat, End))
    requires from <= at <= upTo <= |rows|
    ensures at <= r.0 <= upTo && (r.1.Done? ==> r.0 == upTo)
    decreases upTo - at
  {
    if at == upTo then (at, Done)
    else
      match rows[at].verdict
      case Hidden => Stop(rows, from, at + 1, upTo)
      case Broken => (at, Failed)
      case Visible(size, _) =>
        if Bytes(rows[from..at]) + size + 1 > RESPONSE_BUDGET then (at, Limited) else Stop(rows, from, at + 1, upTo)
  }

  function UpTo(rows: seq<Row>, from: nat, limit: nat): nat { if from + limit < |rows| then from + limit else |rows| }

  predicate AnyBroken(rows: seq<Row>) { exists i :: 0 <= i < |rows| && rows[i].verdict.Broken? }

  /** A request that starts at a row passes it: no record is too large for a page of its own. */
  lemma {:induction false} StopMoves(rows: seq<Row>, from: nat, at: nat, upTo: nat)
    requires from <= at <= upTo <= |rows| && Listed(rows)
    ensures var (stop, end) := Stop(rows, from, at, upTo);
      && (from < upTo && !end.Failed? ==> stop > from)
      && (end.Failed? ==> stop < upTo && rows[stop].verdict.Broken?)
      && (forall k :: at <= k < stop ==> !rows[k].verdict.Broken?)
    decreases upTo - at
  {
    if at < upTo {
      if at == from {
        assert rows[from..at] == [];
      }
      if Stop(rows, from, at, upTo) == Stop(rows, from, at + 1, upTo) {
        StopMoves(rows, from, at + 1, upTo);
      }
    }
  }

  /** A page is of at most 262144 bytes and of the next `limit` rows, and ends early only where
      a record does not fit any more or a row fails. */
  ghost predicate WithinLimits(rows: seq<Row>, from: nat, stop: nat, end: End, limit: nat)
    requires from <= stop <= |rows|
  {
    && stop - from <= limit && Bytes(rows[from..stop]) <= 262_144
    && match end
       case Done => stop == |rows| || stop - from == limit
       case Limited => stop < |rows| && rows[stop].verdict.Visible? && Bytes(rows[from..stop]) + rows[stop].verdict.size + 1 > 262_144
       case Failed => stop < |rows| && rows[stop].verdict.Broken?
  }

  lemma {:induction false} StopsWithin(rows: seq<Row>, from: nat, at: nat, limit: nat)
    requires from <= at <= UpTo(rows, from, limit) && Bytes(rows[from..at]) <= RESPONSE_BUDGET
    ensures var (stop, end) := Stop(rows, from, at, UpTo(rows, from, limit)); WithinLimits(rows, from, stop, end, limit)
    decreases |rows| - at
  {
    if at < UpTo(rows, from, limit) && Stop(rows, from, at, UpTo(rows, from, limit)) == Stop(rows, from, at + 1, UpTo(rows, from, limit)) {
      assert rows[from..at + 1][..at - from] == rows[from..at];
      if Bytes(rows[from..at + 1]) <= RESPONSE_BUDGET {
        StopsWithin(rows, from, at + 1, limit);
      }
    }
  }

  lemma {:induction false} PagesAreWithinLimits(rows: seq<Row>, from: nat, limit: nat)
    requires from <= |rows|
    ensures var (stop, end) := Stop(rows, from, from, UpTo(rows, from, limit)); WithinLimits(rows, from, stop, end, limit)
  {
    assert rows[from..from] == [];
    StopsWithin(rows, from, from, limit);
  }

  /** What all requests show that start at `from` and follow cursors, under any limits; an
      error carries what was shown before it. */
  function Follow(rows: seq<Row>, from: nat, limits: nat -> nat, n: nat): Result<seq<Row>, seq<Row>>
    requires Listed(rows) && from <= |rows| && forall k: nat :: limits(k) > 0
    decreases |rows| - from
  {
    var upTo := UpTo(rows, from, limits(n));
    var (stop, end) := Stop(rows, from, from, upTo);
    StopMoves(rows, from, from, upTo);
    var shown := Visibles(rows[from..stop]);
    if end.Failed? then Err(shown)
    else if stop == |rows| then Ok(shown)
    else
      match Follow(rows, stop, limits, n + 1)
      case Ok(more) => Ok(shown + more)
      case Err(more) => Err(shown + more)
  }

  lemma {:induction false} VisiblesAppend(a: seq<Row>, b: seq<Row>)
    ensures Visibles(a + b) == Visibles(a) + Visibles(b)
  {
    if b == [] {
      assert a + b == a;
    } else {
      VisiblesAppend(a, b[..|b| - 1]);
      assert (a + b)[..|a + b| - 1] == a + b[..|b| - 1];
    }
  }

  /** Whatever the limits, following cursors shows every visible record exactly once, newest
      first, if and only if no row fails. */
  lemma {:induction false} FollowingShowsEveryRecordOnce(rows: seq<Row>, from: nat, limits: nat -> nat, n: nat)
    requires Listed(rows) && from <= |rows| && forall k: nat :: limits(k) > 0
    ensures Follow(rows, from, limits, n).Ok? <==> !AnyBroken(rows[from..])
    ensures Follow(rows, from, limits, n).Ok? ==> Follow(rows, from, limits, n) == Ok(Visibles(rows[from..]))
    decreases |rows| - from
  {
    var upTo := UpTo(rows, from, limits(n));
    var (stop, end) := Stop(rows, from, from, upTo);
    StopMoves(rows, from, from, upTo);
    if end.Failed? {
      assert rows[from..][stop - from] == rows[stop];
    } else {
      assert rows[from..] == rows[from..stop] + rows[stop..];
      VisiblesAppend(rows[from..stop], rows[stop..]);
      if stop == |rows| {
        assert rows[from..stop] == rows[from..];
      } else {
        FollowingShowsEveryRecordOnce(rows, stop, limits, n + 1);
        BrokenAfter(rows, from, stop);
      }
    }
  }

  lemma BrokenAfter(rows: seq<Row>, from: nat, stop: nat)
    requires from <= stop <= |rows| && forall k :: from <= k < stop ==> !rows[k].verdict.Broken?
    ensures AnyBroken(rows[from..]) <==> AnyBroken(rows[stop..])
  {
    if AnyBroken(rows[stop..]) {
      var i :| 0 <= i < |rows[stop..]| && rows[stop..][i].verdict.Broken?;
      assert rows[from..][i + stop - from].verdict.Broken?;
    }
    if AnyBroken(rows[from..]) {
      var i :| 0 <= i < |rows[from..]| && rows[from..][i].verdict.Broken?;
      assert rows[stop..][i + from - stop].verdict.Broken?;
    }
  }

  // ---------------------------------------------------------------- one request

  datatype Page = Page(items: seq<Row>, next: Option<nat>, complete: bool)

  predicate Sourced(row: Row) { row.verdict.Visible? && row.verdict.sourced }

  predicate AllSourced(rows: seq<Row>) { forall k :: 0 <= k < |rows| ==> Sourced(rows[k]) }

  /** What a page means in terms of all rows; `whole` is what the native batch says of itself. */
  ghost predicate Answers(rows: seq<Row>, from: nat, stop: nat, end: End, whole: bool, page: Page)
    requires from <= stop <= |rows|
  {
    && page.items == Visibles(rows[from..stop])
    && (page.next.None? ==> stop == |rows|)
    && (page.next.Some? ==> stop < |rows| && Place(rows, page.next) == stop)
    && (page.complete <==> whole && end.Done? && AllSourced(rows[from..stop]))
  }

  lemma BatchEnds(rows: seq<Row>, from: nat, limit: nat)
    requires Listed(rows) && from <= |rows| && limit > 0
    ensures var upTo := UpTo(rows, from, limit);
      upTo < |rows| ==> upTo > 0 && Place(rows, Some(rows[upTo - 1].number)) == upTo
  {
    var upTo := UpTo(rows, from, limit);
    if upTo < |rows| {
      PlaceIs(rows, rows[upTo - 1].number, upTo);
    }
  }

  /** One request: the native batch below the cursor, shown until the budget is spent. A page
      cut short resumes at its first unshown row, whose number is never the last of all. */
  method List(rows: seq<Row>, cursor: Option<nat>, limit: nat, whole: bool) returns (page: Option<Page>)
    requires Listed(rows) && 1 <= limit <= 50
    ensures var from := Place(rows, cursor);
      var (stop, end) := Stop(rows, from, from, UpTo(rows, from, limit));
      (page.None? <==> end.Failed?) && (page.Some? ==> Answers(rows, from, stop, end, whole, page.value))
  {
    var from := Place(rows, cursor);
    var upTo := UpTo(rows, from, limit);
    BatchEnds(rows, from, limit);
    hide Place, Listed, Stop, Visibles, Bytes, Answers, AllSourced;
    NoneYet(rows, from);
    var items, bytes, gap := [], ENVELOPE, false;
    var next := if upTo < |rows| then Some(rows[upTo - 1].number) else None;
    for at := from to upTo
      invariant items == Visibles(rows[from..at]) && bytes == Bytes(rows[from..at])
      invariant Stop(rows, from, from, upTo) == Stop(rows, from, at, upTo)
      invariant !gap <==> AllSourced(rows[from..at])
    {
      var row := rows[at];
      StopStep(rows, from, at, upTo);
      if row.verdict.Broken? {
        return None;
      }
      OneMore(rows, from, at);
      if row.verdict.Hidden? {
        gap := true;
        continue;
      }
      if bytes + row.verdict.size + 1 > RESPONSE_BUDGET {
        page := Some(CutShort(rows, items, from, at, upTo, whole));
        return;
      }
      gap := gap || !row.verdict.sourced;
      bytes := bytes + row.verdict.size + 1;
      items := items + [row];
    }
    page := Some(WholeBatch(rows, items, from, upTo, next, gap, whole));
    StopAtEnd(rows, from, upTo);
  }

  lemma NotFirst(rows: seq<Row>, from: nat, at: nat, upTo: nat)
    requires from < upTo <= |rows| && Listed(rows) && Stop(rows, from, from, upTo) == (at, Limited)
    ensures at > from
  {
    StopMoves(rows, from, from, upTo);
  }

  lemma NoneYet(rows: seq<Row>, from: nat)
    requires from <= |rows|
    ensures Visibles(rows[from..from]) == [] && Bytes(rows[from..from]) == ENVELOPE && AllSourced(rows[from..from])
  {
  }

  lemma StopStep(rows: seq<Row>, from: nat, at: nat, upTo: nat)
    requires from <= at < upTo <= |rows|
    ensures Stop(rows, from, at, upTo) ==
            match rows[at].verdict
            case Hidden => Stop(rows, from, at + 1, upTo)
            case Broken => (at, Failed)
            case Visible(size, _) =>
              if Bytes(rows[from..at]) + size + 1 > RESPONSE_BUDGET then (at, Limited) else Stop(rows, from, at + 1, upTo)
  {
  }

  lemma StopAtEnd(rows: seq<Row>, from: nat, upTo: nat)
    requires from <= upTo <= |rows|
    ensures Stop(rows, from, upTo, upTo) == (upTo, Done)
  {
  }

  function WholeBatch(rows: seq<Row>, items: seq<Row>, from: nat, upTo: nat, next: Option<nat>, gap: bool,
                      whole: bool): (page: Page)
    requires from <= upTo <= |rows| && items == Visibles(rows[from..upTo])
    requires next.None? <==> upTo == |rows|
    requires next.Some? ==> Place(rows, next) == upTo
    requires !gap <==> AllSourced(rows[from..upTo])
    ensures Answers(rows, from, upTo, Done, whole, page)
  {
    Page(items, next, whole && !gap)
  }

  lemma OneMore(rows: seq<Row>, from: nat, at: nat)
    requires from <= at < |rows|
    ensures Visibles(rows[from..at + 1]) == Visibles(rows[from..at]) + if rows[at].verdict.Visible? then [rows[at]] else []
    ensures Bytes(rows[from..at + 1]) == Bytes(rows[from..at]) + if rows[at].verdict.Visible? then rows[at].verdict.size + 1 else 0
    ensures AllSourced(rows[from..at + 1]) <==> AllSourced(rows[from..at]) && Sourced(rows[at])
  {
    var more := rows[from..at + 1];
    assert forall k :: 0 <= k < at - from ==> more[k] == rows[from..at][k];
    assert more[at - from] == rows[at];
    assert rows[from..at + 1][..at - from] == rows[from..at];
  }

  function CutShort(rows: seq<Row>, items: seq<Row>, from: nat, at: nat, upTo: nat, whole: bool): (page: Page)
    requires Listed(rows) && from <= at < upTo <= |rows| && Stop(rows, from, from, upTo) == (at, Limited)
    requires items == Visibles(rows[from..at])
    ensures Answers(rows, from, at, Limited, whole, page)
  {
    var bound := if rows[at].number + 1 > U64_MAX then U64_MAX else rows[at].number + 1;
    NotFirst(rows, from, at, upTo);
    PlaceIs(rows, bound, at);
    Page(items, Some(bound), false)
  }
}
