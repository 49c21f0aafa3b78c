/** The activity index: a chronological text key, and pages that walk it newest first. */
module ActivityPages {
  import opened Wrappers
  import opened Text

  const U64 := 0x1_0000_0000_0000_0000

  /** An index row. `journalKey` names one journal row, so it is unique in the index. */
  datatype Entry = Entry(id: nat, user: string, submittedAt: nat, journalKey: string, conversation: nat)

  function ActivityOrder(user: string, submittedAt: nat, journalKey: string): string {
    (user + "/") + (Padded(submittedAt, 20) + ("/" + journalKey))
  }

  function Order(e: Entry): string { ActivityOrder(e.user, e.submittedAt, e.journalKey) }

  /** For one user, text order is order by time, then by journal key, over every u64. */
  lemma OrderIsChronological(user: string, a: nat, k: string, b: nat, l: string)
    requires a < U64 && b < U64
    ensures LexLess(ActivityOrder(user, a, k), ActivityOrder(user, b, l)) <==> a < b || (a == b && LexLess(k, l))
  {
    assert U64 <= Power10(20) by {
      assert Power10(5) == 100_000;
      assert Power10(10) == 10_000_000_000;
      assert Power10(15) == 1_000_000_000_000_000;
    }
    LexIrreflexive(user + "/");
    LexConcat(user + "/", user + "/", Padded(a, 20) + ("/" + k), Padded(b, 20) + ("/" + l));
    LexConcat(Padded(a, 20), Padded(b, 20), "/" + k, "/" + l);
    LexConcat("/", "/", k, l);
    PaddedOrder(a, b, 20);
  }

  /** The page range of a user: from `user/` up to, and without, `before` or `user/~`. */
  predicate InRange(order: string, user: string, before: Option<string>) {
    && !LexLess(order, user + "/")
    && LexLess(order, if before.Some? then before.value else user + "/~")
  }

  /** The whole range of a user holds exactly that user's rows. */
  lemma RangeIsTheUsers(e: Entry, user: string)
    requires '/' !in e.user && '/' !in user
    ensures InRange(Order(e), user, None) <==> e.user == user
  {
    var rest := Padded(e.submittedAt, 20) + ("/" + e.journalKey);
    assert user + "/~" == (user + "/") + "~";
    if InRange(Order(e), user, None) {
      LexBetween(Order(e), user + "/", '~');
      IndexOfAfter(user, '/', Order(e)[|user| + 1..]);
      IndexOfAfter(e.user, '/', rest);
      assert Order(e) == e.user + ['/'] + rest;
      assert Order(e) == user + ['/'] + Order(e)[|user| + 1..];
      assert e.user == Order(e)[..|e.user|] && user == Order(e)[..|user|];
    }
    if e.user == user {
      LexIrreflexive(user + "/");
      LexConcat(user + "/", user + "/", rest, "");
      LexConcat(user + "/", user + "/", rest, "~");
      assert (user + "/") + "" == user + "/";
    }
  }

  // ---------------------------------------------------------------- one page

  /** What stays the same while cursors are followed. */
  datatype Query = Query(user: string, conversation: Option<nat>, upper: nat)

  predicate Wanted(e: Entry, q: Query) {
    e.id <= q.upper && (q.conversation.Some? ==> e.conversation == q.conversation.value)
  }

  /** The B-tree holds its rows by order key. */
  ghost predicate Sorted(index: seq<Entry>) {
    forall i, j :: 0 <= i < j < |index| ==> LexLess(Order(index[i]), Order(index[j]))
  }

  ghost predicate SortedDown(rows: seq<Entry>) {
    forall i, j :: 0 <= i < j < |rows| ==> LexLess(Order(rows[j]), Order(rows[i]))
  }

  /** The wanted rows of a range, in descending order. */
  function Matching(index: seq<Entry>, q: Query, before: Option<string>): seq<Entry> {
    if index == [] then []
    else
      var last := index[|index| - 1];
      (if InRange(Order(last), q.user, before) && Wanted(last, q) then [last] else [])
      + Matching(index[..|index| - 1], q, before)
  }

  function First(rows: seq<Entry>, limit: nat): seq<Entry> {
    if |rows| <= limit then rows else rows[..limit]
  }

  /** The traversal of one request: descending, stopped once `limit` rows match. */
  method Page(index: seq<Entry>, q: Query, before: Option<string>, limit: nat)
    returns (rows: seq<Entry>, next: Option<string>)
    requires limit > 0
    ensures rows == First(Matching(index, q, before), limit)
    ensures next == if |rows| == limit then Some(Order(rows[limit - 1])) else None
  {
    hide LexLess, ActivityOrder, InRange, Matching;
    rows := [];
    var i := |index|;
    assert index[..i] == index;
    while i > 0 && |rows| < limit
      invariant 0 <= i <= |index| && |rows| <= limit
      invariant Matching(index, q, before) == rows + Matching(index[..i], q, before)
    {
      i := i - 1;
      MatchingStep(index, i, q, before);
      if InRange(Order(index[i]), q.user, before) && Wanted(index[i], q) {
        rows := rows + [index[i]];
      }
    }
    MatchingNone(q, before);
    assert index[..0] == [];
    next := if |rows| == limit then Some(Order(rows[limit - 1])) else None;
  }

  lemma MatchingStep(index: seq<Entry>, i: nat, q: Query, before: Option<string>)
    requires i < |index|
    ensures Matching(index[..i + 1], q, before) ==
            (if InRange(Order(index[i]), q.user, before) && Wanted(index[i], q) then [index[i]] else [])
            + Matching(index[..i], q, before)
  {
    assert index[..i + 1][..i] == index[..i];
  }

  lemma MatchingNone(q: Query, before: Option<string>)
    ensures Matching([], q, before) == []
  {
  }

  // ---------------------------------------------------------------- following cursors

  lemma {:induction false} MatchingDescends(index: seq<Entry>, q: Query, before: Option<string>)
    requires Sorted(index)
    ensures SortedDown(Matching(index, q, before))
    ensures forall e :: e in Matching(index, q, before) <==>
                          e in index && InRange(Order(e), q.user, before) && Wanted(e, q)
  {
    if index != [] {
      var front, last := index[..|index| - 1], index[|index| - 1];
      MatchingDescends(front, q, before);
      forall e | e in Matching(front, q, before)
        ensures LexLess(Order(e), Order(last))
      {
        var i :| 0 <= i < |front| && front[i] == e;
        assert index[i] == e;
      }
      assert index == front + [last];
    }
  }

  /** The rows a walk is to select are the user's own, no later than its beginning, and of the
      conversation asked for, if one is. */
  lemma {:induction false} MatchesExactly(index: seq<Entry>, q: Query, e: Entry)
    requires Sorted(index) && '/' !in e.user && '/' !in q.user
    ensures e in Matching(index, q, None) <==>
              e in index && e.user == q.user && e.id <= q.upper && (q.conversation.None? || q.conversation == Some(e.conversation))
  {
    MatchingDescends(index, q, None);
    RangeIsTheUsers(e, q.user);
    hide InRange, Sorted;
  }

  /** The rows below a bound. */
  function Below(rows: seq<Entry>, bound: string): seq<Entry> {
    if rows == [] then []
    else (if LexLess(Order(rows[0]), bound) then [rows[0]] else []) + Below(rows[1..], bound)
  }

  /** A lower bound only drops rows. */
  lemma {:induction false} MatchingBelow(index: seq<Entry>, q: Query, before: Option<string>, bound: string)
    requires before.Some? ==> !LexLess(before.value, bound)
    requires before.None? ==> !LexLess(q.user + "/~", bound)
    ensures Matching(index, q, Some(bound)) == Below(Matching(index, q, before), bound)
  {
    if index != [] {
      var last := index[|index| - 1];
      var top := Bound(q, before);
      var rest := Matching(index[..|index| - 1], q, before);
      MatchingBelow(index[..|index| - 1], q, before, bound);
      assert ([last] + rest)[1..] == rest;
      assert [] + rest == rest;
      if LexLess(Order(last), bound) {
        LexTotal(bound, top);
        if LexLess(bound, top) {
          LexTransitive(Order(last), bound, top);
        }
      }
    }
  }

  lemma {:induction false} BelowDescending(rows: seq<Entry>, k: nat)
    requires SortedDown(rows) && k < |rows|
    ensures Below(rows, Order(rows[k])) == rows[k + 1..]
  {
    if k == 0 {
      LexIrreflexive(Order(rows[0]));
      BelowAll(rows[1..], Order(rows[0]));
    } else {
      assert LexLess(Order(rows[k]), Order(rows[0]));
      if LexLess(Order(rows[0]), Order(rows[k])) {
        LexTransitive(Order(rows[0]), Order(rows[k]), Order(rows[0]));
        LexIrreflexive(Order(rows[0]));
      }
      BelowDescending(rows[1..], k - 1);
    }
  }

  lemma {:induction false} BelowAll(rows: seq<Entry>, bound: string)
    requires forall e :: e in rows ==> LexLess(Order(e), bound)
    ensures Below(rows, bound) == rows
  {
    if rows != [] {
      BelowAll(rows[1..], bound);
    }
  }

  /** The rows that were there when the walk began. */
  function Old(index: seq<Entry>, upper: nat): seq<Entry> {
    if index == [] then []
    else Old(index[..|index| - 1], upper) + (if index[|index| - 1].id <= upper then [index[|index| - 1]] else [])
  }

  /** An index that only gained rows with later ids has the same old rows. */
  lemma {:induction false} InsertKeepsOld(index: seq<Entry>, at: nat, e: Entry, upper: nat)
    requires at <= |index| && e.id > upper
    ensures Old(index[..at] + [e] + index[at..], upper) == Old(index, upper)
  {
    var grown := index[..at] + [e] + index[at..];
    if at == |index| {
      assert grown[..|grown| - 1] == index;
    } else {
      var front := index[..|index| - 1];
      InsertKeepsOld(front, at, e, upper);
      assert grown[..|grown| - 1] == front[..at] + [e] + front[at..];
    }
  }

  lemma {:induction false} MatchingIsOld(index: seq<Entry>, q: Query, before: Option<string>)
    ensures Matching(index, q, before) == Matching(Old(index, q.upper), q, before)
  {
    if index != [] {
      var front, last := index[..|index| - 1], index[|index| - 1];
      MatchingIsOld(front, q, before);
      if last.id <= q.upper {
        assert Old(index, q.upper)[..|Old(index, q.upper)| - 1] == Old(front, q.upper);
      } else {
        assert Old(index, q.upper) == Old(front, q.upper);
      }
    }
  }

  /** One request of a walk: the index it finds, and its limit. */
  datatype Visit = Visit(index: seq<Entry>, limit: nat)

  ghost predicate Readable(visits: seq<Visit>) {
    forall v :: v in visits ==> Sorted(v.index) && v.limit > 0
  }

  function Bound(q: Query, before: Option<string>): string {
    if before.Some? then before.value else q.user + "/~"
  }

  function PageAt(visit: Visit, q: Query, before: Option<string>): seq<Entry> {
    First(Matching(visit.index, q, before), visit.limit)
  }

  /** A page that is full gives a cursor; any other ends the walk. */
  predicate Full(visit: Visit, q: Query, before: Option<string>) {
    0 < visit.limit == |PageAt(visit, q, before)|
  }

  function NextCursor(visit: Visit, q: Query, before: Option<string>): Option<string>
    requires Full(visit, q, before)
  {
    Some(Order(PageAt(visit, q, before)[visit.limit - 1]))
  }

  /** What following cursors from `before` selects. */
  function Walk(visits: seq<Visit>, q: Query, before: Option<string>): seq<Entry> {
    if visits == [] then []
    else
      PageAt(visits[0], q, before)
      + (if Full(visits[0], q, before) then Walk(visits[1..], q, NextCursor(visits[0], q, before)) else [])
  }

  predicate Ended(visits: seq<Visit>, q: Query, before: Option<string>) {
    visits != []
    && (Full(visits[0], q, before) ==> Ended(visits[1..], q, NextCursor(visits[0], q, before)))
  }

  lemma PageDescends(visit: Visit, q: Query, before: Option<string>)
    requires Sorted(visit.index)
    ensures SortedDown(PageAt(visit, q, before))
    ensures forall e :: e in PageAt(visit, q, before) ==> LexLess(Order(e), Bound(q, before))
    ensures Full(visit, q, before) ==> forall e :: e in Matching(visit.index, q, before) ==>
              (e in PageAt(visit, q, before) <==> !LexLess(Order(e), NextCursor(visit, q, before).value))
    ensures !Full(visit, q, before) && visit.limit > 0 ==> PageAt(visit, q, before) == Matching(visit.index, q, before)
  {
    var matching := Matching(visit.index, q, before);
    MatchingDescends(visit.index, q, before);
    if Full(visit, q, before) {
      var last := visit.limit - 1;
      assert matching[last] == PageAt(visit, q, before)[last];
      forall k | 0 <= k < |matching|
        ensures k <= last ==> !LexLess(Order(matching[k]), Order(matching[last]))
      {
        if k <= last && LexLess(Order(matching[k]), Order(matching[last])) {
          LexTransitive(Order(matching[k]), Order(matching[last]), Order(matching[k]));
          LexIrreflexive(Order(matching[k]));
        }
      }
      forall k | 0 <= k < |matching|
        ensures matching[k] in PageAt(visit, q, before) <==> !LexLess(Order(matching[k]), Order(matching[last]))
      {
        if k <= last {
          assert PageAt(visit, q, before)[k] == matching[k];
        } else {
          assert LexLess(Order(matching[k]), Order(matching[last]));
        }
      }
    }
  }

  // ---------------------------------------------------------------- any changes between pages

  lemma {:induction false} WalkBelow(visits: seq<Visit>, q: Query, before: Option<string>)
    requires Readable(visits)
    ensures forall e :: e in Walk(visits, q, before) ==> LexLess(Order(e), Bound(q, before))
  {
    hide Matching, LexLess;
    if visits != [] {
      PageDescends(visits[0], q, before);
      if Full(visits[0], q, before) {
        var cursor := NextCursor(visits[0], q, before);
        WalkBelow(visits[1..], q, cursor);
        forall e | e in Walk(visits[1..], q, cursor)
          ensures LexLess(Order(e), Bound(q, before))
        {
          LexTransitive(Order(e), cursor.value, Bound(q, before));
        }
      }
    }
  }

  /** However the index changes between pages, a walk goes strictly down: no row of one order
      is selected twice. */
  lemma {:induction false} WalkDescends(visits: seq<Visit>, q: Query, before: Option<string>)
    requires Readable(visits)
    ensures SortedDown(Walk(visits, q, before))
  {
    hide Matching, LexLess;
    if visits != [] {
      PageDescends(visits[0], q, before);
      if Full(visits[0], q, before) {
        var page, cursor := PageAt(visits[0], q, before), NextCursor(visits[0], q, before);
        WalkDescends(visits[1..], q, cursor);
        WalkBelow(visits[1..], q, cursor);
        forall e, later | e in page && later in Walk(visits[1..], q, cursor)
          ensures LexLess(Order(later), Order(e))
        {
          var last := page[visits[0].limit - 1];
          var k :| 0 <= k < |page| && page[k] == e;
          if k < visits[0].limit - 1 {
            assert LexLess(Order(last), Order(e));
            LexTransitive(Order(later), Order(last), Order(e));
          }
        }
      }
    }
  }

  /** One row as the visits find it: wanted each time, and re-keyed upwards only, as a later
      submission time does. */
  ghost predicate Rising(visits: seq<Visit>, row: seq<Entry>, q: Query) {
    && |row| == |visits|
    && (forall k :: 0 <= k < |row| ==> row[k] in visits[k].index && row[k].user == q.user && Wanted(row[k], q))
    && (forall k, l :: 0 <= k < l < |row| ==> !LexLess(Order(row[l]), Order(row[k])))
  }

  /** How many pages of the walk have the row as their visit finds it. */
  function TimesSelected(visits: seq<Visit>, row: seq<Entry>, q: Query, before: Option<string>): nat
    requires |row| == |visits|
  {
    if visits == [] then 0
    else
      (if row[0] in PageAt(visits[0], q, before) then 1 else 0)
      + (if Full(visits[0], q, before)
         then TimesSelected(visits[1..], row[1..], q, NextCursor(visits[0], q, before)) else 0)
  }

  /** Between two pages the row was re-keyed from below the cursor to it or above. */
  predicate Overtakes(visits: seq<Visit>, row: seq<Entry>, q: Query, before: Option<string>)
    requires |row| == |visits|
  {
    |visits| > 1 && Full(visits[0], q, before)
    && ((LexLess(Order(row[0]), NextCursor(visits[0], q, before).value)
         && !LexLess(Order(row[1]), NextCursor(visits[0], q, before).value))
        || Overtakes(visits[1..], row[1..], q, NextCursor(visits[0], q, before)))
  }

  lemma InOwnRange(e: Entry, q: Query, before: Option<string>)
    requires e.user == q.user
    ensures InRange(Order(e), q.user, before) <==> LexLess(Order(e), Bound(q, before))
  {
    LexIrreflexive(q.user + "/");
    LexConcat(q.user + "/", q.user + "/", Padded(e.submittedAt, 20) + ("/" + e.journalKey), "");
    assert (q.user + "/") + "" == q.user + "/";
  }

  lemma NotBelowBoth(x: string, y: string, z: string)
    requires !LexLess(y, x) && !LexLess(x, z)
    ensures !LexLess(y, z)
  {
    if LexLess(y, z) {
      LexTotal(x, z);
      if LexLess(z, x) {
        LexTransitive(y, z, x);
      }
    }
  }

  /** A row above the cursor is neither selected any more nor overtakes again. */
  lemma {:induction false} AboveStaysAbove(visits: seq<Visit>, row: seq<Entry>, q: Query, before: Option<string>)
    requires Readable(visits) && Rising(visits, row, q)
    requires row != [] ==> !LexLess(Order(row[0]), Bound(q, before))
    ensures TimesSelected(visits, row, q, before) == 0 && !Overtakes(visits, row, q, before)
  {
    hide Matching, LexLess;
    if visits != [] {
      PageDescends(visits[0], q, before);
      if Full(visits[0], q, before) {
        var cursor := NextCursor(visits[0], q, before);
        LastBelow(visits[0], q, before);
        CursorBelow(Order(row[0]), cursor.value, Bound(q, before));
        if |row| > 1 {
          NotBelowBoth(Order(row[0]), Order(row[1]), cursor.value);
        }
        AboveStaysAbove(visits[1..], row[1..], q, cursor);
      }
    }
  }

  lemma LastBelow(visit: Visit, q: Query, before: Option<string>)
    requires Sorted(visit.index) && Full(visit, q, before)
    ensures LexLess(NextCursor(visit, q, before).value, Bound(q, before))
  {
    PageDescends(visit, q, before);
    assert PageAt(visit, q, before)[visit.limit - 1] in PageAt(visit, q, before);
  }

  lemma CursorBelow(x: string, cursor: string, bound: string)
    requires LexLess(cursor, bound) && !LexLess(x, bound)
    ensures !LexLess(x, cursor)
  {
    if LexLess(x, cursor) {
      LexTransitive(x, cursor, bound);
    }
  }

  /** A row that is wanted throughout a walk, whatever else the index gains, loses or re-keys
      meanwhile, is selected once if it never overtakes the cursor, and never if it does. */
  lemma {:induction false} SelectedExactly(visits: seq<Visit>, row: seq<Entry>, q: Query, before: Option<string>)
    requires Readable(visits) && Rising(visits, row, q) && Ended(visits, q, before)
    requires LexLess(Order(row[0]), Bound(q, before))
    ensures TimesSelected(visits, row, q, before) == if Overtakes(visits, row, q, before) then 0 else 1
  {
    hide Matching, LexLess;
    PageDescends(visits[0], q, before);
    MatchingDescends(visits[0].index, q, before);
    InOwnRange(row[0], q, before);
    assert row[0] in Matching(visits[0].index, q, before);
    if Full(visits[0], q, before) {
      var cursor := NextCursor(visits[0], q, before);
      if !LexLess(Order(row[0]), cursor.value) {
        NotBelowBoth(Order(row[0]), Order(row[1]), cursor.value);
        AboveStaysAbove(visits[1..], row[1..], q, cursor);
      } else if !LexLess(Order(row[1]), cursor.value) {
        AboveStaysAbove(visits[1..], row[1..], q, cursor);
      } else {
        SelectedExactly(visits[1..], row[1..], q, cursor);
      }
    }
  }

  lemma MatchingTwo(low: Entry, high: Entry, q: Query, before: Option<string>)
    ensures Matching([low, high], q, before) ==
            (if InRange(Order(high), q.user, before) && Wanted(high, q) then [high] else [])
            + (if InRange(Order(low), q.user, before) && Wanted(low, q) then [low] else [])
  {
    assert [low, high][..1] == [low];
    assert [low][..0] == [];
    MatchingNone(q, before);
    assert Matching([low], q, before) ==
           (if InRange(Order(low), q.user, before) && Wanted(low, q) then [low] else []) + Matching([low][..0], q, before);
  }

  lemma OrdersByTime(e: Entry, f: Entry)
    requires e.user == f.user && e.submittedAt < f.submittedAt < U64
    ensures LexLess(Order(e), Order(f)) && !LexLess(Order(f), Order(e))
  {
    OrderIsChronological(e.user, e.submittedAt, e.journalKey, f.submittedAt, f.journalKey);
    OrderIsChronological(e.user, f.submittedAt, f.journalKey, e.submittedAt, e.journalKey);
  }

  /** Of any two rows that a walk should select, the older one is submitted again, later than
      the other, after the first page ended at that one: the walk ends without it. */
  lemma OvertakingRowIsMissed(first: Entry, second: Entry, later: nat, q: Query)
    requires first.user == second.user == q.user && '/' !in q.user && Wanted(first, q) && Wanted(second, q)
    requires first.submittedAt < second.submittedAt < later < U64
    ensures var again := first.(submittedAt := later);
      var visits := [Visit([first, second], 1), Visit([second, again], 1)];
      && Readable(visits) && Rising(visits, [first, again], q) && Ended(visits, q, None)
      && Walk(visits, q, None) == [second]
  {
    hide LexLess, ActivityOrder, Matching;
    var again := first.(submittedAt := later);
    var visits := [Visit([first, second], 1), Visit([second, again], 1)];
    OrdersByTime(first, second);
    OrdersByTime(second, again);
    OrdersByTime(first, again);
    LexIrreflexive(Order(second));
    RangeIsTheUsers(first, q.user);
    RangeIsTheUsers(second, q.user);
    MatchingTwo(first, second, q, None);
    assert PageAt(visits[0], q, None) == [second];
    var cursor := Some(Order(second));
    MatchingTwo(second, again, q, cursor);
    assert PageAt(visits[1], q, cursor) == [];
    assert visits[1..] == [visits[1]];
    assert Ended([visits[1]], q, cursor) && Walk([visits[1]], q, cursor) == [];
  }

  // ---------------------------------------------------------------- an index that only grows

  /** Every index seen along the walk holds the same old rows. */
  ghost predicate Growing(visits: seq<Visit>, kept: seq<Entry>, upper: nat) {
    forall v :: v in visits ==> Old(v.index, upper) == kept
  }

  lemma SamePage(visits: seq<Visit>, q: Query, before: Option<string>, kept: seq<Entry>)
    requires Readable(visits) && Growing(visits, kept, q.upper) && visits != []
    ensures Matching(visits[0].index, q, before) == Matching(kept, q, before)
    ensures SortedDown(Matching(kept, q, before)) && visits[0].limit > 0
  {
    MatchingIsOld(visits[0].index, q, before);
    MatchingDescends(visits[0].index, q, before);
  }

  lemma RestFollows(visits: seq<Visit>, q: Query, before: Option<string>, kept: seq<Entry>)
    requires Readable(visits) && Growing(visits, kept, q.upper) && visits != [] && Full(visits[0], q, before)
    ensures var matching, limit := Matching(kept, q, before), visits[0].limit;
      && |matching| >= limit > 0 && PageAt(visits[0], q, before) == matching[..limit]
      && Matching(kept, q, NextCursor(visits[0], q, before)) == matching[limit..]
  {
    hide Matching, LexLess, Below;
    SamePage(visits, q, before, kept);
    var matching, limit := Matching(kept, q, before), visits[0].limit;
    var bound := Order(matching[limit - 1]);
    MatchingInRange(kept, q, before, limit - 1);
    MatchingBelow(kept, q, before, bound);
    BelowDescending(matching, limit - 1);
  }

  lemma {:induction false} MatchingInRange(index: seq<Entry>, q: Query, before: Option<string>, k: nat)
    requires k < |Matching(index, q, before)|
    ensures !LexLess(Bound(q, before), Order(Matching(index, q, before)[k]))
  {
    var last := index[|index| - 1];
    var taken := InRange(Order(last), q.user, before) && Wanted(last, q);
    if taken && k == 0 {
      if LexLess(Bound(q, before), Order(last)) {
        LexTransitive(Order(last), Bound(q, before), Order(last));
        LexIrreflexive(Order(last));
      }
    } else {
      MatchingInRange(index[..|index| - 1], q, before, if taken then k - 1 else k);
    }
  }

  /** Whatever the limits, while the index only gains rows, a walk ends, and it has then
      selected every row that matched at its first page exactly once, newest first. */
  lemma {:induction false} WalkSelectsEachRowOnce(visits: seq<Visit>, q: Query, before: Option<string>, kept: seq<Entry>)
    requires Readable(visits) && Growing(visits, kept, q.upper)
    ensures |visits| > |Matching(kept, q, before)| ==> Ended(visits, q, before)
    ensures Ended(visits, q, before) ==>
              Walk(visits, q, before) == Matching(visits[0].index, q, before) == Matching(kept, q, before)
  {
    hide Matching, LexLess;
    if visits != [] {
      SamePage(visits, q, before, kept);
      if Full(visits[0], q, before) {
        RestFollows(visits, q, before, kept);
        WalkSelectsEachRowOnce(visits[1..], q, NextCursor(visits[0], q, before), kept);
        var matching, limit := Matching(kept, q, before), visits[0].limit;
        assert matching == matching[..limit] + matching[limit..];
      }
    }
  }
}
