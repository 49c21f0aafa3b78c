/** Entity pages: one scan over the Nexus's query pages, stopped by a row limit, a scan
    budget or a byte budget, and resumed from a cursor. */
module EntityPages {
  import opened Wrappers

  const RESPONSE_BUDGET := 262_144
  const ENVELOPE := 1024
  const RECORD_LIMIT := 131_072

  /** How a row counts for a page: not shown, shown at the size of its shortened record, or
      unreadable, in which case the page is refused. */
  datatype Verdict = Hidden | Visible(size: nat) | Broken

  datatype Row = Row(id: Option<string>, outgoing: bool, verdict: Verdict)

  /** `Flat` lays the query pages end to end, so a cursor is a position in one list of rows
      and the theorems speak of that list. */
  datatype Cursor = Cursor(entity: string, kip: Option<nat>, skip: nat)

  datatype Scan = Scan(claims: seq<Row>, next: Option<Cursor>, hidden: bool, scanLimited: bool, sizeLimited: bool)

  /** A compacted record is never larger than `RECORD_LIMIT`. */
  predicate Compacted(rows: seq<Row>) {
    forall i :: 0 <= i < |rows| ==> (rows[i].verdict.Visible? ==> rows[i].verdict.size <= RECORD_LIMIT)
  }

  // ---------------------------------------------------------------- what one request shows

  predicate Seen(rows: seq<Row>, row: Row) {
    exists i :: 0 <= i < |rows| && rows[i].id == row.id && rows[i].outgoing == row.outgoing
  }

  /** Of the rows one request inspects, those it shows: visible, and not a repetition. */
  function Shown(rows: seq<Row>): seq<Row> {
    if rows == [] then []
    else
      var before, last := rows[..|rows| - 1], rows[|rows| - 1];
      Shown(before) + if last.id.Some? && !Seen(before, last) && last.verdict.Visible? then [last] else []
  }

  predicate Hides(before: seq<Row>, row: Row) {
    row.id.None? || (!Seen(before, row) && row.verdict.Hidden?)
  }

  predicate AnyHidden(rows: seq<Row>) {
    exists i :: 0 <= i < |rows| && Hides(rows[..i], rows[i])
  }

  function Bytes(claims: seq<Row>): nat {
    if claims == [] then ENVELOPE
    else
      var last := claims[|claims| - 1];
      Bytes(claims[..|claims| - 1]) + (if last.verdict.Visible? then last.verdict.size else 0) + 1
  }

  datatype End = Exhausted | AtLimit | ScanLimited | SizeLimited | Failed

  /** Where a request that started at `from` and stands at `at` stops, and why. */
  function Stop(rows: seq<Row>, from: nat, at: nat, limit: nat, budget: nat): (r: (nat, End))
    requires from <= at <= |rows|
    ensures at <= r.0 <= |rows|
    decreases |rows| - at
  {
    if at == |rows| then (at, Exhausted)
    else if at - from == budget then (at, ScanLimited)
    else
      var before, row := rows[from..at], rows[at];
      if row.id.None? || Seen(before, row) || row.verdict.Hidden? then Stop(rows, from, at + 1, limit, budget)
      else if row.verdict.Broken? then (at, Failed)
      else if Bytes(Shown(before)) + row.verdict.size + 1 > RESPONSE_BUDGET then (at, SizeLimited)
      else if |Shown(before)| + 1 == limit then (at + 1, AtLimit)
      else Stop(rows, from, at + 1, limit, budget)
  }

  // ---------------------------------------------------------------- cursors and positions

  function Flat(pages: seq<seq<Row>>): seq<Row> {
    if pages == [] then [] else Flat(pages[..|pages| - 1]) + pages[|pages| - 1]
  }

  function PageOf(cursor: Cursor): nat { if cursor.kip.Some? then cursor.kip.value else 0 }

  predicate InPages(pages: seq<seq<Row>>, cursor: Cursor) {
    PageOf(cursor) < |pages| && cursor.skip <= |pages[PageOf(cursor)]|
  }

  /** The place of a cursor in the list of all rows. */
  function Place(pages: seq<seq<Row>>, cursor: Cursor): nat
    requires InPages(pages, cursor)
  {
    |Flat(pages[..PageOf(cursor)])| + cursor.skip
  }

  lemma {:induction false} FlatSplits(pages: seq<seq<Row>>, k: nat)
    requires k < |pages|
    ensures |Flat(pages[..k])| + |pages[k]| == |Flat(pages[..k + 1])| <= |Flat(pages)|
    ensures Flat(pages)[|Flat(pages[..k])|..|Flat(pages[..k + 1])|] == pages[k]
  {
    if k + 1 == |pages| {
      assert pages[..k + 1] == pages && pages[..|pages| - 1] == pages[..k];
    } else {
      var front := pages[..|pages| - 1];
      FlatSplits(front, k);
      assert front[..k] == pages[..k] && front[..k + 1] == pages[..k + 1];
      assert pages[..k + 1][..k] == pages[..k];
    }
  }

  lemma PlaceInFlat(pages: seq<seq<Row>>, k: nat)
    requires k < |pages|
    ensures |Flat(pages[..k])| + |pages[k]| <= |Flat(pages)|
    ensures forall i :: 0 <= i < |pages[k]| ==> Flat(pages)[|Flat(pages[..k])| + i] == pages[k][i]
    ensures |Flat(pages[..k + 1])| == |Flat(pages[..k])| + |pages[k]|
    ensures k + 1 == |pages| ==> |Flat(pages)| == |Flat(pages[..k])| + |pages[k]|
  {
    FlatSplits(pages, k);
    assert k + 1 == |pages| ==> pages[..k + 1] == pages;
    forall i | 0 <= i < |pages[k]|
      ensures Flat(pages)[|Flat(pages[..k])| + i] == pages[k][i]
    {
      assert Flat(pages)[|Flat(pages[..k])|..|Flat(pages[..k + 1])|][i] == pages[k][i];
    }
  }

  predicate Ahead(a: Cursor, b: Cursor) {
    PageOf(a) < PageOf(b) || (PageOf(a) == PageOf(b) && a.skip < b.skip)
  }

  // ---------------------------------------------------------------- following cursors

  /** Every visible row, in query order. */
  function AllVisible(rows: seq<Row>): seq<Row> {
    if rows == [] then []
    else AllVisible(rows[..|rows| - 1]) + (if rows[|rows| - 1].id.Some? && rows[|rows| - 1].verdict.Visible? then [rows[|rows| - 1]] else [])
  }

  ghost predicate Distinct(rows: seq<Row>) {
    forall i, j :: 0 <= i < j < |rows| && rows[i].id.Some? ==>
      rows[i].id != rows[j].id || rows[i].outgoing != rows[j].outgoing
  }

  predicate SomeBroken(rows: seq<Row>) {
    exists i :: 0 <= i < |rows| && rows[i].id.Some? && rows[i].verdict.Broken?
  }

  datatype Limits = Limits(limit: nat, budget: nat)

  predicate Positive(plan: nat -> Limits, n: nat) { plan(n).limit > 0 && plan(n).budget > 0 }

  lemma {:induction false} StopMoves(rows: seq<Row>, from: nat, at: nat, limit: nat, budget: nat)
    requires from <= at <= |rows| && Compacted(rows) && limit > 0 && budget > 0
    ensures var (stop, end) := Stop(rows, from, at, limit, budget);
      && (from < |rows| && !end.Failed? ==> stop > from)
      && (end.Exhausted? <==> stop == |rows| && !end.AtLimit?)
      && (!end.Failed? ==> !SomeBrokenFirst(rows, from, at, stop))
    decreases |rows| - at
  {
    if at < |rows| && at - from != budget {
      var before := rows[from..at];
      if at == from {
        assert before == [] && Bytes(Shown(before)) == ENVELOPE;
      }
      if Stop(rows, from, at, limit, budget) == Stop(rows, from, at + 1, limit, budget) {
        StopMoves(rows, from, at + 1, limit, budget);
      }
    }
  }

  /** A broken row, new to the request, between `at` and `stop`. */
  predicate SomeBrokenFirst(rows: seq<Row>, from: nat, at: nat, stop: nat)
    requires from <= at <= stop <= |rows|
  {
    exists i :: at <= i < stop && rows[i].id.Some? && !Seen(rows[from..i], rows[i]) && rows[i].verdict.Broken?
  }

  /** The claims of all requests that start at `from` and follow cursors to the end; the
      n-th request has the limits `plan(n)`. An error ends the walk. */
  function Follow(rows: seq<Row>, from: nat, plan: nat -> Limits, n: nat): Result<seq<Row>, seq<Row>>
    requires from <= |rows| && Compacted(rows) && forall k :: Positive(plan, k)
    decreases |rows| - from
  {
    assert Positive(plan, n);
    StopMoves(rows, from, from, plan(n).limit, plan(n).budget);
    var (stop, end) := Stop(rows, from, from, plan(n).limit, plan(n).budget);
    if end.Failed? then Err([])
    else if end.Exhausted? then Ok(Shown(rows[from..stop]))
    else match Follow(rows, stop, plan, n + 1)
         case Ok(rest) => Ok(Shown(rows[from..stop]) + rest)
         case Err(rest) => Err(Shown(rows[from..stop]) + rest)
  }

  lemma {:induction false} DistinctShowsAll(rows: seq<Row>)
    requires Distinct(rows)
    ensures Shown(rows) == AllVisible(rows)
  {
    if rows != [] {
      DistinctShowsAll(rows[..|rows| - 1]);
    }
  }

  lemma {:induction false} AllVisibleAppends(a: seq<Row>, b: seq<Row>)
    ensures AllVisible(a + b) == AllVisible(a) + AllVisible(b)
  {
    if b == [] {
      assert a + b == a;
    } else {
      AllVisibleAppends(a, b[..|b| - 1]);
      assert (a + b)[..|a + b| - 1] == a + b[..|b| - 1];
    }
  }

  /** A request fails only at a broken row. */
  lemma {:induction false} FailsAtBroken(rows: seq<Row>, from: nat, at: nat, limit: nat, budget: nat)
    requires from <= at <= |rows|
    ensures var (stop, end) := Stop(rows, from, at, limit, budget);
      end.Failed? ==> stop < |rows| && rows[stop].id.Some? && rows[stop].verdict.Broken?
    decreases |rows| - at
  {
    if at < |rows| && Stop(rows, from, at, limit, budget) != (at, ScanLimited) {
      if Stop(rows, from, at, limit, budget) == Stop(rows, from, at + 1, limit, budget) {
        FailsAtBroken(rows, from, at + 1, limit, budget);
      }
    }
  }

  lemma SliceDistinct(rows: seq<Row>, a: nat, b: nat)
    requires a <= b <= |rows| && Distinct(rows)
    ensures Distinct(rows[a..b])
    ensures Shown(rows[a..b]) == AllVisible(rows[a..b])
  {
    var slice := rows[a..b];
    forall i, j | 0 <= i < j < |slice| && slice[i].id.Some?
      ensures slice[i].id != slice[j].id || slice[i].outgoing != slice[j].outgoing
    {
      assert slice[i] == rows[a + i] && slice[j] == rows[a + j];
    }
    DistinctShowsAll(slice);
  }

  lemma BrokenSplits(rows: seq<Row>, from: nat, stop: nat)
    requires from <= stop <= |rows| && Distinct(rows)
    ensures SomeBroken(rows[from..]) <==> SomeBrokenFirst(rows, from, from, stop) || SomeBroken(rows[stop..])
  {
    if SomeBroken(rows[from..]) {
      var i :| 0 <= i < |rows[from..]| && rows[from..][i].id.Some? && rows[from..][i].verdict.Broken?;
      var k := from + i;
      assert rows[k] == rows[from..][i];
      if k < stop {
        forall j | 0 <= j < k - from
          ensures rows[from..k][j].id != rows[k].id || rows[from..k][j].outgoing != rows[k].outgoing
        {
          assert rows[from..k][j] == rows[from + j];
        }
        assert !Seen(rows[from..k], rows[k]);
      } else {
        assert rows[stop..][k - stop] == rows[k];
      }
    }
    if SomeBrokenFirst(rows, from, from, stop) {
      var k :| from <= k < stop && rows[k].id.Some? && !Seen(rows[from..k], rows[k]) && rows[k].verdict.Broken?;
      assert rows[from..][k - from] == rows[k];
    }
    if SomeBroken(rows[stop..]) {
      var i :| 0 <= i < |rows[stop..]| && rows[stop..][i].id.Some? && rows[stop..][i].verdict.Broken?;
      assert rows[from..][stop - from + i] == rows[stop..][i];
    }
  }

  /** Over distinct rows, whatever the limits of each request: the cursors lead through every
      visible row exactly once, in order, if and only if no row is broken; otherwise the walk
      ends in an error. */
  lemma {:induction false} FollowingShowsEveryVisibleRowOnce(rows: seq<Row>, from: nat, plan: nat -> Limits, n: nat)
    requires from <= |rows| && Compacted(rows) && Distinct(rows) && forall k :: Positive(plan, k)
    ensures Follow(rows, from, plan, n).Ok? <==> !SomeBroken(rows[from..])
    ensures Follow(rows, from, plan, n).Ok? ==> Follow(rows, from, plan, n) == Ok(AllVisible(rows[from..]))
    decreases |rows| - from
  {
    assert Positive(plan, n);
    var (stop, end) := Stop(rows, from, from, plan(n).limit, plan(n).budget);
    StopMoves(rows, from, from, plan(n).limit, plan(n).budget);
    FailsAtBroken(rows, from, from, plan(n).limit, plan(n).budget);
    if end.Failed? {
      assert rows[from..][stop - from] == rows[stop];
    } else {
      BrokenSplits(rows, from, stop);
      SliceDistinct(rows, from, stop);
      assert rows[from..] == rows[from..stop] + rows[stop..];
      AllVisibleAppends(rows[from..stop], rows[stop..]);
      if !end.Exhausted? {
        FollowingShowsEveryVisibleRowOnce(rows, stop, plan, n + 1);
      } else {
        assert rows[stop..] == [] && AllVisible(rows[from..stop]) + [] == AllVisible(rows[from..stop]);
      }
    }
  }

  /** What a request shows of the rows it inspects is within its limits, and it stops only
      where one of them, the rows or a row that cannot be read stops it. */
  ghost predicate WithinLimits(rows: seq<Row>, from: nat, stop: nat, end: End, limit: nat, budget: nat)
    requires from <= stop <= |rows|
  {
    var shown := Shown(rows[from..stop]);
    && |shown| <= limit && Bytes(shown) <= 262_144 && stop - from <= budget
    && match end
       case Exhausted => stop == |rows|
       case AtLimit => |shown| == limit
       case ScanLimited => stop - from == budget && stop < |rows|
       case SizeLimited =>
         stop < |rows| && rows[stop].id.Some? && !Seen(rows[from..stop], rows[stop]) && rows[stop].verdict.Visible?
         && Bytes(shown) + rows[stop].verdict.size + 1 > 262_144
       case Failed =>
         stop < |rows| && rows[stop].id.Some? && !Seen(rows[from..stop], rows[stop]) && rows[stop].verdict.Broken?
  }

  lemma {:induction false} StopsWithin(rows: seq<Row>, from: nat, at: nat, limit: nat, budget: nat)
    requires from <= at <= |rows| && at - from <= budget
    requires |Shown(rows[from..at])| < limit && Bytes(Shown(rows[from..at])) <= RESPONSE_BUDGET
    ensures var (stop, end) := Stop(rows, from, at, limit, budget); WithinLimits(rows, from, stop, end, limit, budget)
    decreases |rows| - at
  {
    hide Seen;
    if at < |rows| && at - from != budget {
      var row := rows[at];
      var seen := Seen(rows[from..at], row);
      if row.id.None? || seen || row.verdict.Hidden? {
        ShownNoMore(rows, from, at);
        StopsWithin(rows, from, at + 1, limit, budget);
      } else if row.verdict.Visible? && Bytes(Shown(rows[from..at])) + row.verdict.size + 1 <= RESPONSE_BUDGET {
        ShownOneMore(rows, from, at);
        if |Shown(rows[from..at])| + 1 != limit {
          StopsWithin(rows, from, at + 1, limit, budget);
        }
      }
    }
  }

  /** A page holds at most its limit of claims and 262144 bytes, of at most its budget of rows. */
  lemma {:induction false} PagesAreWithinLimits(rows: seq<Row>, from: nat, limit: nat, budget: nat)
    requires from <= |rows| && limit > 0
    ensures var (stop, end) := Stop(rows, from, from, limit, budget); WithinLimits(rows, from, stop, end, limit, budget)
  {
    assert rows[from..from] == [];
    StopsWithin(rows, from, from, limit, budget);
  }

  function OneByOne(n: nat): Limits { Limits(1, 1) }

  /** Distinctness is needed: a row repeated across two requests is shown by both. */
  lemma RepeatedRowIsShownTwice(id: string)
    ensures var row := Row(Some(id), true, Visible(1));
      && Shown([row, row]) == [row]
      && Follow([row, row], 0, OneByOne, 0) == Ok([row, row])
  {
    var row := Row(Some(id), true, Visible(1));
    var rows, plan := [row, row], OneByOne;
    assert rows[0..0] == [] && rows[..1] == [row] && rows[0..1] == [row] && rows[1..1] == [] && rows[1..2] == [row] && rows[2..2] == [];
    assert Seen([row], row) by {
      assert [row][0].id == row.id;
    }
    assert Shown([row]) == [row] by {
      assert [row][..0] == [];
    }
    assert Stop(rows, 0, 0, 1, 1) == (1, AtLimit);
    assert Stop(rows, 1, 1, 1, 1) == (2, AtLimit);
    assert Follow(rows, 2, plan, 2) == Ok([]);
    assert Shown([]) == [] && [row] + [] == [row];
    assert Follow(rows, 1, plan, 1) == Ok([row]);
    assert [row] + [row] == rows;
  }

  // ---------------------------------------------------------------- the host's code

  lemma ShownStep(rows: seq<Row>, from: nat, at: nat)
    requires from <= at < |rows|
    ensures rows[from..at + 1][..at - from] == rows[from..at] && rows[from..at + 1][at - from] == rows[at]
    ensures AnyHidden(rows[from..at + 1]) <==> AnyHidden(rows[from..at]) || Hides(rows[from..at], rows[at])
  {
    var before, now := rows[from..at], rows[from..at + 1];
    assert now[..at - from] == before;
    forall i | 0 <= i < |before|
      ensures before[..i] == now[..i] && before[i] == now[i]
    {
    }
    if AnyHidden(before) {
      var i :| 0 <= i < |before| && Hides(before[..i], before[i]);
      assert Hides(now[..i], now[i]);
    }
    if Hides(before, rows[at]) {
      assert Hides(now[..at - from], now[at - from]);
    }
    if AnyHidden(now) {
      var i :| 0 <= i < |now| && Hides(now[..i], now[i]);
      assert i < |before| ==> Hides(before[..i], before[i]);
    }
  }

  /** What a scan's answer means in terms of the list of all rows. */
  ghost predicate Answers(pages: seq<seq<Row>>, start: Cursor, limit: nat, budget: nat, scan: Scan)
    requires InPages(pages, start) && Place(pages, start) <= |Flat(pages)|
  {
    var rows, from := Flat(pages), Place(pages, start);
    var (stop, end) := Stop(rows, from, from, limit, budget);
    && !end.Failed?
    && scan.claims == Shown(rows[from..stop])
    && scan.hidden == AnyHidden(rows[from..stop])
    && scan.scanLimited == end.ScanLimited? && scan.sizeLimited == end.SizeLimited?
    && (end.Exhausted? ==> scan.next.None?)
    && (scan.next.None? ==> stop == |rows|)
    && (scan.next.Some? ==>
          && scan.next.value.entity == start.entity
          && InPages(pages, scan.next.value) && Place(pages, scan.next.value) == stop
          && (limit > 0 && budget > 0 && Compacted(rows) ==> Ahead(start, scan.next.value)))
  }

  lemma PlaceBounded(pages: seq<seq<Row>>, cursor: Cursor)
    requires InPages(pages, cursor)
    ensures Place(pages, cursor) <= |Flat(pages)|
  {
    PlaceInFlat(pages, PageOf(cursor));
  }

  /** The set the scan keeps of the rows it has seen. */
  ghost predicate Remembers(seen: set<(string, bool)>, rows: seq<Row>) {
    forall row: Row :: row.id.Some? ==> ((row.id.value, row.outgoing) in seen <==> Seen(rows, row))
  }

  lemma RemembersOneMore(seen: set<(string, bool)>, rows: seq<Row>, row: Row)
    requires Remembers(seen, rows)
    ensures row.id.Some? ==> Remembers(seen + {(row.id.value, row.outgoing)}, rows + [row])
    ensures row.id.None? ==> Remembers(seen, rows + [row])
  {
    forall other: Row | other.id.Some?
      ensures Seen(rows + [row], other) <==> Seen(rows, other) || (other.id == row.id && other.outgoing == row.outgoing)
    {
      if Seen(rows, other) {
        var i :| 0 <= i < |rows| && rows[i].id == other.id && rows[i].outgoing == other.outgoing;
        assert (rows + [row])[i] == rows[i];
      }
      assert (rows + [row])[|rows|] == row;
    }
  }

  /** The running state of a scan of `rows` from `from`, standing at `at`. */
  ghost predicate Standing(rows: seq<Row>, from: nat, at: nat, limit: nat, budget: nat,
                           result: Scan, seen: set<(string, bool)>, scanned: nat, bytes: nat)
  {
    && from <= at <= |rows|
    && scanned == at - from
    && result.claims == Shown(rows[from..at]) && bytes == Bytes(result.claims)
    && result.hidden == AnyHidden(rows[from..at])
    && result.next.None? && !result.scanLimited && !result.sizeLimited
    && Remembers(seen, rows[from..at])
    && Stop(rows, from, at, limit, budget) == Stop(rows, from, from, limit, budget)
  }

  /** The cursor of the row that follows `index`, if any query page has one. */
  function After(pages: seq<seq<Row>>, position: Cursor, index: nat): Option<Cursor>
    requires InPages(pages, position) && index < |pages[PageOf(position)]|
  {
    if index + 1 < |pages[PageOf(position)]| then Some(position.(skip := index + 1))
    else if PageOf(position) + 1 < |pages| then Some(Cursor(position.entity, Some(PageOf(position) + 1), 0))
    else None
  }

  lemma ShownNoMore(rows: seq<Row>, from: nat, at: nat)
    requires from <= at < |rows|
    requires rows[at].id.None? || Seen(rows[from..at], rows[at]) || rows[at].verdict.Hidden?
    ensures Shown(rows[from..at + 1]) == Shown(rows[from..at])
    ensures AnyHidden(rows[from..at + 1]) == (AnyHidden(rows[from..at]) || rows[at].id.None? || !Seen(rows[from..at], rows[at]))
  {
    ShownStep(rows, from, at);
    assert Shown(rows[from..at]) + [] == Shown(rows[from..at]);
  }

  lemma SkipStep(rows: seq<Row>, from: nat, at: nat, limit: nat, budget: nat,
                 result: Scan, seen: set<(string, bool)>, scanned: nat, bytes: nat)
    requires Standing(rows, from, at, limit, budget, result, seen, scanned, bytes)
    requires at < |rows| && scanned != budget
    requires rows[at].id.None? || (rows[at].id.value, rows[at].outgoing) in seen || rows[at].verdict.Hidden?
    ensures var row := rows[at];
      var hides := row.id.None? || (row.id.value, row.outgoing) !in seen;
      var seen' := if row.id.None? then seen else seen + {(row.id.value, row.outgoing)};
      Standing(rows, from, at + 1, limit, budget, result.(hidden := result.hidden || hides), seen', scanned + 1, bytes)
  {
    hide Shown, AnyHidden, Bytes, Seen;
    ShownNoMore(rows, from, at);
    assert rows[from..at + 1] == rows[from..at] + [rows[at]];
    RemembersOneMore(seen, rows[from..at], rows[at]);
  }

  lemma StartStep(rows: seq<Row>, from: nat, limit: nat, budget: nat)
    requires from <= |rows|
    ensures Standing(rows, from, from, limit, budget, Scan([], None, false, false, false), {}, 0, ENVELOPE)
  {
    assert rows[from..from] == [];
  }

  lemma ShownOneMore(rows: seq<Row>, from: nat, at: nat)
    requires from <= at < |rows|
    requires rows[at].id.Some? && !Seen(rows[from..at], rows[at]) && rows[at].verdict.Visible?
    ensures Shown(rows[from..at + 1]) == Shown(rows[from..at]) + [rows[at]]
    ensures Bytes(Shown(rows[from..at + 1])) == Bytes(Shown(rows[from..at])) + rows[at].verdict.size + 1
    ensures AnyHidden(rows[from..at + 1]) == AnyHidden(rows[from..at])
  {
    ShownStep(rows, from, at);
    assert (Shown(rows[from..at]) + [rows[at]])[..|Shown(rows[from..at])|] == Shown(rows[from..at]);
  }

  lemma TakeStep(rows: seq<Row>, from: nat, at: nat, limit: nat, budget: nat,
                 result: Scan, seen: set<(string, bool)>, scanned: nat, bytes: nat)
    requires Standing(rows, from, at, limit, budget, result, seen, scanned, bytes)
    requires at < |rows| && scanned != budget
    requires rows[at].id.Some? && (rows[at].id.value, rows[at].outgoing) !in seen && rows[at].verdict.Visible?
    requires bytes + rows[at].verdict.size + 1 <= RESPONSE_BUDGET
    ensures var row := rows[at];
      var result' := result.(claims := result.claims + [row]);
      && result'.claims == Shown(rows[from..at + 1]) && result'.hidden == AnyHidden(rows[from..at + 1])
      && if |result'.claims| == limit then Stop(rows, from, from, limit, budget) == (at + 1, AtLimit)
         else Standing(rows, from, at + 1, limit, budget, result', seen + {(row.id.value, row.outgoing)},
                       scanned + 1, bytes + row.verdict.size + 1)
  {
    hide Shown, AnyHidden, Bytes, Seen;
    ShownOneMore(rows, from, at);
    assert rows[from..at + 1] == rows[from..at] + [rows[at]];
    RemembersOneMore(seen, rows[from..at], rows[at]);
  }

  lemma StopStep(rows: seq<Row>, from: nat, at: nat, limit: nat, budget: nat,
                 result: Scan, seen: set<(string, bool)>, scanned: nat, bytes: nat)
    requires Standing(rows, from, at, limit, budget, result, seen, scanned, bytes)
    ensures var stops := Stop(rows, from, from, limit, budget);
      && (at == |rows| ==> stops == (at, Exhausted))
      && (at < |rows| && scanned == budget ==> stops == (at, ScanLimited))
      && (at < |rows| && scanned != budget && rows[at].id.Some? && (rows[at].id.value, rows[at].outgoing) !in seen ==>
            (rows[at].verdict.Broken? ==> stops == (at, Failed))
            && (rows[at].verdict.Visible? && bytes + rows[at].verdict.size + 1 > RESPONSE_BUDGET ==> stops == (at, SizeLimited)))
      && (Compacted(rows) && at < |rows| && rows[at].verdict.Visible? && bytes + rows[at].verdict.size + 1 > RESPONSE_BUDGET ==> at > from)
  {
    if at == from {
      assert rows[from..at] == [];
    }
  }

  /** The inner loop: one query page, whose first row is at `offset` of all rows. */
  method ScanPage(pages: seq<seq<Row>>, position: Cursor, limit: nat, budget: nat,
                  result0: Scan, seen0: set<(string, bool)>, scanned0: nat, bytes0: nat,
                  ghost start: Cursor)
    returns (done: bool, failed: bool, result: Scan, seen: set<(string, bool)>, scanned: nat, bytes: nat)
    requires InPages(pages, position) && InPages(pages, start) && Place(pages, start) <= |Flat(pages)|
    requires position.entity == start.entity
    requires position == start || (PageOf(position) > PageOf(start) && position.skip == 0)
    requires Standing(Flat(pages), Place(pages, start), Place(pages, position), limit, budget, result0, seen0, scanned0, bytes0)
    ensures done && failed ==> Stop(Flat(pages), Place(pages, start), Place(pages, start), limit, budget).1.Failed?
    ensures done && !failed ==> Answers(pages, start, limit, budget, result)
    ensures !done ==> Standing(Flat(pages), Place(pages, start), |Flat(pages[..PageOf(position) + 1])|, limit, budget,
                               result, seen, scanned, bytes)
  {
    hide Stop, Shown, AnyHidden, Bytes, Seen, Flat;
    result, seen, scanned, bytes := result0, seen0, scanned0, bytes0;
    done, failed := false, false;
    var here := pages[PageOf(position)];
    ghost var rows, from, offset := Flat(pages), Place(pages, start), |Flat(pages[..PageOf(position)])|;
    PlaceInFlat(pages, PageOf(position));
    var index := position.skip;
    while index < |here|
      invariant position.skip <= index <= |here|
      invariant Standing(rows, from, offset + index, limit, budget, result, seen, scanned, bytes)
    {
      var row := here[index];
      StopStep(rows, from, offset + index, limit, budget, result, seen, scanned, bytes);
      if scanned == budget {
        result := result.(scanLimited := true, next := Some(position.(skip := index)));
        done := true;
        return;
      }
      if row.id.None? || (row.id.value, row.outgoing) in seen || row.verdict.Hidden? {
        SkipStep(rows, from, offset + index, limit, budget, result, seen, scanned, bytes);
        if row.id.None? {
          result := result.(hidden := true);
        } else if (row.id.value, row.outgoing) !in seen {
          seen := seen + {(row.id.value, row.outgoing)};
          result := result.(hidden := true);
        } else {
          assert seen + {(row.id.value, row.outgoing)} == seen;
        }
      } else if row.verdict.Broken? {
        done, failed := true, true;
        return;
      } else {
        if bytes + row.verdict.size + 1 > RESPONSE_BUDGET {
          result := result.(sizeLimited := true, next := Some(position.(skip := index)));
          done := true;
          return;
        }
        TakeStep(rows, from, offset + index, limit, budget, result, seen, scanned, bytes);
        seen := seen + {(row.id.value, row.outgoing)};
        bytes := bytes + row.verdict.size + 1;
        result := result.(claims := result.claims + [row]);
        if |result.claims| == limit {
          if index + 1 == |here| && PageOf(position) + 1 < |pages| {
            PlaceInFlat(pages, PageOf(position) + 1);
          }
          result := result.(next := After(pages, position, index));
          done := true;
          return;
        }
      }
      scanned := scanned + 1;
      index := index + 1;
    }
  }

  /** One request: its claims, flags and cursor are those the flat list of rows gives from the
      place of `start`, and it fails only at a broken row. */
  method ScanFrom(pages: seq<seq<Row>>, start: Cursor, limit: nat, budget: nat) returns (answer: Result<Scan, string>)
    requires |pages| > 0
    ensures !InPages(pages, start) ==> answer == Err("invalid_cursor")
    ensures InPages(pages, start) ==> Place(pages, start) <= |Flat(pages)|
    ensures InPages(pages, start) ==>
              (answer.Err? <==> Stop(Flat(pages), Place(pages, start), Place(pages, start), limit, budget).1.Failed?)
    ensures InPages(pages, start) && answer.Ok? ==> Answers(pages, start, limit, budget, answer.value)
  {
    hide Stop, Shown, AnyHidden, Bytes, Seen, Flat;
    if PageOf(start) >= |pages| || start.skip > |pages[PageOf(start)]| {
      return Err("invalid_cursor");
    }
    PlaceBounded(pages, start);
    ghost var rows, from := Flat(pages), Place(pages, start);
    var result := Scan([], None, false, false, false);
    StartStep(rows, from, limit, budget);
    var position := start;
    var seen: set<(string, bool)>, scanned: nat, bytes: nat := {}, 0, ENVELOPE;
    while true
      invariant position.entity == start.entity && InPages(pages, position)
      invariant position == start || (PageOf(position) > PageOf(start) && position.skip == 0)
      invariant Standing(rows, from, Place(pages, position), limit, budget, result, seen, scanned, bytes)
      decreases |pages| - PageOf(position)
    {
      var done, failed;
      done, failed, result, seen, scanned, bytes :=
        ScanPage(pages, position, limit, budget, result, seen, scanned, bytes, start);
      if done {
        return if failed then Err("unsupported_scope") else Ok(result);
      }
      if PageOf(position) + 1 == |pages| {
        PlaceInFlat(pages, PageOf(position));
        StopStep(rows, from, |rows|, limit, budget, result, seen, scanned, bytes);
        return Ok(result);
      }
      position := Cursor(position.entity, Some(PageOf(position) + 1), 0);
    }
  }

  // ---------------------------------------------------------------- a reader of all pages

  function Prepend(claims: seq<Row>, rest: Result<seq<Row>, seq<Row>>): Result<seq<Row>, seq<Row>> {
    match rest
    case Ok(more) => Ok(claims + more)
    case Err(more) => Err(claims + more)
  }

  lemma PrependJoins(a: seq<Row>, b: seq<Row>, rest: Result<seq<Row>, seq<Row>>)
    ensures Prepend([], rest) == rest && Prepend(a, Prepend(b, rest)) == Prepend(a + b, rest)
  {
    var more := if rest.Ok? then rest.value else rest.error;
    assert [] + more == more && a + (b + more) == (a + b) + more;
  }

  /** What a successful request leaves to follow: from its cursor, or nothing. */
  lemma FollowOn(pages: seq<seq<Row>>, cursor: Cursor, plan: nat -> Limits, n: nat, scan: Scan)
    requires InPages(pages, cursor) && Place(pages, cursor) <= |Flat(pages)| && Compacted(Flat(pages))
    requires (forall k :: Positive(plan, k)) && Answers(pages, cursor, plan(n).limit, plan(n).budget, scan)
    ensures scan.next.Some? ==> Place(pages, cursor) < Place(pages, scan.next.value) <= |Flat(pages)|
    ensures Follow(Flat(pages), Place(pages, cursor), plan, n) ==
            Prepend(scan.claims, if scan.next.None? then Ok([])
                                 else Follow(Flat(pages), Place(pages, scan.next.value), plan, n + 1))
  {
    var rows, from := Flat(pages), Place(pages, cursor);
    assert Positive(plan, n) && Positive(plan, n + 1);
    hide Shown, Flat, Place;
    StopMoves(rows, from, from, plan(n).limit, plan(n).budget);
    if scan.next.None? {
      assert rows[|rows|..|rows|] == [];
      assert Shown([]) == [] by {
        NothingShown();
      }
      assert scan.claims + [] == scan.claims;
    }
  }

  lemma NothingShown()
    ensures Shown([]) == []
  {
  }

  /** Over distinct rows, following real cursors from one request to the next ends, and shows
      every visible row from `start` on once, in query order, unless a row there is broken. */
  method FollowCursors(pages: seq<seq<Row>>, start: Cursor, plan: nat -> Limits) returns (claims: seq<Row>, failed: bool)
    requires InPages(pages, start) && Compacted(Flat(pages)) && Distinct(Flat(pages)) && forall k :: Positive(plan, k)
    ensures Place(pages, start) <= |Flat(pages)|
    ensures failed <==> SomeBroken(Flat(pages)[Place(pages, start)..])
    ensures !failed ==> claims == AllVisible(Flat(pages)[Place(pages, start)..])
  {
    hide Stop, Shown, AnyHidden, Flat, Place, Follow, SomeBroken, AllVisible, Distinct, Compacted;
    PlaceBounded(pages, start);
    ghost var rows, from := Flat(pages), Place(pages, start);
    FollowingShowsEveryVisibleRowOnce(rows, from, plan, 0);
    claims, failed := [], false;
    var cursor, n := start, 0;
    PrependJoins([], [], Follow(rows, from, plan, 0));
    while true
      invariant InPages(pages, cursor) && Place(pages, cursor) <= |rows|
      invariant Follow(rows, from, plan, 0) == Prepend(claims, Follow(rows, Place(pages, cursor), plan, n))
      decreases |rows| - Place(pages, cursor)
    {
      var limits := plan(n);
      var answer := ScanFrom(pages, cursor, limits.limit, limits.budget);
      if answer.Err? {
        FollowFails(rows, Place(pages, cursor), plan, n);
        return claims, true;
      }
      var next := answer.value.next;
      FollowOn(pages, cursor, plan, n, answer.value);
      PrependJoins(claims, answer.value.claims,
                   if next.None? then Ok([]) else Follow(rows, Place(pages, next.value), plan, n + 1));
      claims := claims + answer.value.claims;
      if next.None? {
        return;
      }
      cursor, n := next.value, n + 1;
    }
  }

  lemma FollowFails(rows: seq<Row>, from: nat, plan: nat -> Limits, n: nat)
    requires from <= |rows| && Compacted(rows) && (forall k :: Positive(plan, k))
    requires Stop(rows, from, from, plan(n).limit, plan(n).budget).1.Failed?
    ensures Follow(rows, from, plan, n).Err?
  {
  }
}
