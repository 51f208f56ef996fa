/**
 Paging through the messages of a stay, newest page first, while new messages keep being added.
 */
module MemoryPages {
  import opened Prelude

  datatype Row = Row(id: nat, stay: nat, tool: bool)

  // `beforeId` names the next page; it is there exactly when there is one.
  datatype Page = Page(messages: seq<Row>, hasMore: bool, beforeId: Option<nat>)

  // Primary keys start at 1 and are handed out in increasing order.
  ghost predicate Table(rows: seq<Row>) {
    && (forall i :: 0 <= i < |rows| ==> rows[i].id > 0)
    && (forall i, j :: 0 <= i < j < |rows| ==> rows[i].id < rows[j].id)
  }

  function Clamp(limit: int): (r: nat)
    ensures 1 <= r <= 100
    ensures 1 <= limit <= 100 ==> r == limit
  {
    if limit < 1 then 1 else if limit > 100 then 100 else limit
  }

  predicate Shown(row: Row, stay: nat, before: int) {
    row.stay == stay && !row.tool && (before > 0 ==> row.id < before)
  }

  // The query: the stay's messages that are not tool results, with smaller ids when a page is continued.
  function Matching(rows: seq<Row>, stay: nat, before: int): seq<Row> {
    if rows == [] then []
    else if Shown(rows[0], stay, before) then [rows[0]] + Matching(rows[1..], stay, before)
    else Matching(rows[1..], stay, before)
  }

  function Reversed(rows: seq<Row>): (r: seq<Row>)
    ensures |r| == |rows|
    ensures forall i :: 0 <= i < |rows| ==> r[i] == rows[|rows| - 1 - i]
  {
    if rows == [] then [] else Reversed(rows[1..]) + [rows[0]]
  }

  // What a page is for: the last `limit` matching messages, oldest first.
  function PageOf(rows: seq<Row>, stay: nat, limit: int, before: int): Page {
    var all, n := Matching(rows, stay, before), Clamp(limit);
    if |all| > n then Page(all[|all| - n..], true, Some(all[|all| - n].id)) else Page(all, false, None)
  }

  ghost predicate IsLast(page: Page, all: seq<Row>, asked: nat) {
    && |page.messages| == (if |all| < asked then |all| else asked)
    && page.messages == all[|all| - |page.messages|..]
    && (page.hasMore <==> |all| > asked)
    && (asked > 0 ==> page.beforeId == if |all| > asked then Some(page.messages[0].id) else None)
  }

  lemma PageIsLast(rows: seq<Row>, stay: nat, limit: int, before: int)
    ensures IsLast(PageOf(rows, stay, limit, before), Matching(rows, stay, before), Clamp(limit))
  {
    var all := Matching(rows, stay, before);
    assert all[|all| - |all|..] == all;
  }

  // The statements of the view.
  method Select(rows: seq<Row>, stay: nat, limit: int, before: int) returns (page: Page)
    ensures page == PageOf(rows, stay, limit, before)
  {
    ghost var all := Matching(rows, stay, before);
    var n := Clamp(limit);
    var messages := Reversed(Matching(rows, stay, before));
    if |messages| > n + 1 {
      messages := messages[..n + 1];
    }
    var hasMore := |messages| > n;
    if hasMore {
      messages := messages[..n];
    }
    var reversed: seq<Row> := [];
    var i := 0;
    while i < |messages|
      invariant i <= |messages| && |reversed| == i
      invariant forall k :: 0 <= k < i ==> reversed[k] == messages[i - 1 - k]
    {
      reversed := [messages[i]] + reversed;
      i := i + 1;
    }
    assert reversed == all[|all| - |messages|..];
    page := Page(reversed, hasMore, if reversed != [] && hasMore then Some(reversed[0].id) else None);
  }

  // The page holds the last matching messages, as many as were asked for but at least one and at most a hundred, or
  // all of them if there are fewer; the oldest message shown names the next page if and only if there are more.
  method GetMemory(rows: seq<Row>, stay: nat, limit: int, before: int) returns (page: Page)
    ensures page == PageOf(rows, stay, limit, before)
    ensures IsLast(page, Matching(rows, stay, before), if limit < 1 then 1 else if limit > 100 then 100 else limit)
  {
    PageIsLast(rows, stay, limit, before);
    page := Select(rows, stay, limit, before);
  }

  // ------------------------------------------------------------------
  // Following the pages
  // ------------------------------------------------------------------

  // Requests for page after page; between two of them rows may be added to the table, and each request may ask
  // for another limit.
  ghost predicate IsWalk(tables: seq<seq<Row>>, limits: seq<int>, pages: seq<Page>, stay: nat) {
    && |tables| == |limits| == |pages| && |pages| > 0
    && (forall i :: 0 <= i < |tables| ==> Table(tables[i]))
    && (forall i :: 0 <= i < |tables| - 1 ==> tables[i] <= tables[i + 1])
    && pages[0] == PageOf(tables[0], stay, limits[0], 0)
    && (forall i :: 0 <= i < |pages| - 1 ==> pages[i].beforeId.Some?)
    && (forall i :: 0 <= i < |pages| - 1 ==> Continues(tables[i + 1], stay, limits[i + 1], pages[i], pages[i + 1]))
  }

  ghost predicate Continues(rows: seq<Row>, stay: nat, limit: int, page: Page, next: Page) {
    page.beforeId.Some? && next == PageOf(rows, stay, limit, page.beforeId.value)
  }

  // The messages collected after `n` pages, each put before the earlier ones.
  function Collected(pages: seq<Page>, n: nat): seq<Row>
    requires n <= |pages|
  {
    if n == 0 then [] else pages[n - 1].messages + Collected(pages, n - 1)
  }

  lemma {:induction false} MatchingHas(rows: seq<Row>, stay: nat, before: int)
    requires Table(rows)
    ensures Table(Matching(rows, stay, before))
    ensures forall r :: r in Matching(rows, stay, before) <==> r in rows && Shown(r, stay, before)
  {
    if rows != [] {
      MatchingHas(rows[1..], stay, before);
      var rest := Matching(rows[1..], stay, before);
      forall i | 0 <= i < |rest|
        ensures rest[i].id > rows[0].id
      {
        assert rest[i] in rows[1..];
      }
    }
  }

  // The matching messages are those of the stay that are no tool results and have a smaller id, in id order.
  lemma MatchingAre(rows: seq<Row>, stay: nat, before: int)
    requires Table(rows)
    ensures Table(Matching(rows, stay, before))
    ensures forall r :: r in Matching(rows, stay, before) <==>
              r in rows && r.stay == stay && !r.tool && (before <= 0 || r.id < before)
  {
    MatchingHas(rows, stay, before);
  }

  lemma {:induction false} MatchingJoin(a: seq<Row>, b: seq<Row>, stay: nat, before: int)
    ensures Matching(a + b, stay, before) == Matching(a, stay, before) + Matching(b, stay, before)
  {
    if a == [] {
      assert a + b == b;
    } else {
      MatchingJoin(a[1..], b, stay, before);
      assert (a + b)[0] == a[0] && (a + b)[1..] == a[1..] + b;
      assert [a[0]] + (Matching(a[1..], stay, before) + Matching(b, stay, before))
          == ([a[0]] + Matching(a[1..], stay, before)) + Matching(b, stay, before);
    }
  }

  lemma {:induction false} NoneMatch(rows: seq<Row>, stay: nat, before: int)
    requires forall i :: 0 <= i < |rows| ==> !Shown(rows[i], stay, before)
    ensures Matching(rows, stay, before) == []
  {
    if rows != [] {
      NoneMatch(rows[1..], stay, before);
    }
  }

  // Rows added later have larger ids, so they match no continued page.
  lemma LaterRowsDoNotMatch(rows: seq<Row>, later: seq<Row>, stay: nat, before: nat)
    requires Table(later) && rows <= later
    requires exists r :: r in rows && r.id == before
    ensures Matching(later, stay, before) == Matching(rows, stay, before)
  {
    var added := later[|rows|..];
    assert later == rows + added;
    forall i | 0 <= i < |added|
      ensures !Shown(added[i], stay, before)
    {
      assert added[i] == later[|rows| + i];
    }
    MatchingJoin(rows, added, stay, before);
    NoneMatch(added, stay, before);
  }

  // Continuing at the `k`-th shown message leaves the ones before it.
  lemma {:induction false} MatchingBefore(rows: seq<Row>, stay: nat, k: nat)
    requires Table(rows) && k < |Matching(rows, stay, 0)|
    ensures Matching(rows, stay, Matching(rows, stay, 0)[k].id) == Matching(rows, stay, 0)[..k]
  {
    var all := Matching(rows, stay, 0);
    MatchingHas(rows, stay, 0);
    assert all[k] in all && all[k].id > 0;
    var rest := rows[1..];
    var later := Matching(rest, stay, 0);
    if Shown(rows[0], stay, 0) {
      assert all == [rows[0]] + later;
      if k == 0 {
        NoneMatch(rows, stay, rows[0].id);
      } else {
        MatchingBefore(rest, stay, k - 1);
        assert all[0].id < all[k].id && all[k] == later[k - 1];
        assert all[..k] == [rows[0]] + later[..k - 1];
      }
    } else {
      MatchingBefore(rest, stay, k);
    }
  }

  // How far a walk has come: everything from the `k`-th message on has been collected.
  ghost predicate Reached(all: seq<Row>, page: Page, collected: seq<Row>, k: nat) {
    && k <= |all| && collected == all[k..]
    && page.hasMore == (k > 0)
    && (k > 0 ==> k < |all|)
    && page.beforeId == if k > 0 then Some(all[k].id) else None
  }

  lemma FirstPage(rows: seq<Row>, stay: nat, limit: int, page: Page) returns (k: nat)
    requires page == PageOf(rows, stay, limit, 0)
    ensures Reached(Matching(rows, stay, 0), page, page.messages, k)
  {
    var all, n := Matching(rows, stay, 0), Clamp(limit);
    k := if |all| > n then |all| - n else 0;
    assert all[0..] == all;
  }

  lemma ContinuedMatches(rows: seq<Row>, later: seq<Row>, stay: nat, j: nat)
    requires Table(rows) && Table(later) && rows <= later && j < |Matching(rows, stay, 0)|
    ensures Matching(later, stay, Matching(rows, stay, 0)[j].id) == Matching(rows, stay, 0)[..j]
  {
    var all := Matching(rows, stay, 0);
    MatchingHas(rows, stay, 0);
    assert all[j] in all;
    LaterRowsDoNotMatch(rows, later, stay, all[j].id);
    MatchingBefore(rows, stay, j);
  }

  // A continued page adds the messages right before those already collected.
  lemma NextPage(rows: seq<Row>, later: seq<Row>, stay: nat, limit: int, page: Page, next: Page, collected: seq<Row>, j: nat)
    returns (k: nat)
    requires Table(rows) && Table(later) && rows <= later && Continues(later, stay, limit, page, next)
    requires Reached(Matching(rows, stay, 0), page, collected, j)
    ensures Reached(Matching(rows, stay, 0), next, next.messages + collected, k)
    ensures k < j
  {
    var all, n := Matching(rows, stay, 0), Clamp(limit);
    ContinuedMatches(rows, later, stay, j);
    k := if j > n then j - n else 0;
    PrefixSuffix(all, j, k);
    assert next.messages == all[..j][k..];
  }

  lemma PrefixSuffix(all: seq<Row>, j: nat, k: nat)
    requires k <= j <= |all|
    ensures all[..j][k..] + all[j..] == all[k..] && all[..j][0..] == all[..j]
    ensures k < j ==> all[..j][k] == all[k]
  {
  }

  lemma {:induction false} WalkReaches(tables: seq<seq<Row>>, limits: seq<int>, pages: seq<Page>, stay: nat, i: nat)
    returns (k: nat)
    requires IsWalk(tables, limits, pages, stay) && i < |pages|
    ensures Reached(Matching(tables[0], stay, 0), pages[i], Collected(pages, i + 1), k)
    ensures k == 0 || k + i < |Matching(tables[0], stay, 0)|
    ensures i > 0 ==> i < |Matching(tables[0], stay, 0)|
    decreases i
  {
    if i == 0 {
      k := FirstPage(tables[0], stay, limits[0], pages[0]);
      assert Collected(pages, 0) == [] && pages[0].messages + [] == pages[0].messages;
    } else {
      var j := WalkReaches(tables, limits, pages, stay, i - 1);
      var before := i - 1;
      assert Continues(tables[before + 1], stay, limits[before + 1], pages[before], pages[before + 1]);
      TablesGrow(tables, i);
      k := NextPage(tables[0], tables[i], stay, limits[i], pages[i - 1], pages[i], Collected(pages, i), j);
    }
  }

  lemma {:induction false} TablesGrow(tables: seq<seq<Row>>, i: nat)
    requires i < |tables| && forall j :: 0 <= j < |tables| - 1 ==> tables[j] <= tables[j + 1]
    ensures tables[0] <= tables[i]
  {
    if i > 0 {
      TablesGrow(tables, i - 1);
      assert tables[i - 1] <= tables[i - 1 + 1];
    }
  }

  // A walk that has come to its last page has collected every message that was shown when it began, each once and
  // in id order, and nothing that was added since. It is over exactly when no page is named next, and it is over
  // after at most as many pages as there were messages.
  lemma WalkIsComplete(tables: seq<seq<Row>>, limits: seq<int>, pages: seq<Page>, stay: nat)
    requires IsWalk(tables, limits, pages, stay)
    ensures
      var last, all := pages[|pages| - 1], Matching(tables[0], stay, 0);
      && (!last.hasMore <==> Collected(pages, |pages|) == all)
      && (last.hasMore <==> last.beforeId.Some?)
      && |pages| <= |all| + 1
      && (last.hasMore ==> |pages| < |all|)
      && Table(Collected(pages, |pages|))
      && (!last.hasMore ==> forall r :: r in Collected(pages, |pages|) <==> r in tables[0] && r.stay == stay && !r.tool)
  {
    var all := Matching(tables[0], stay, 0);
    var k := WalkReaches(tables, limits, pages, stay, |pages| - 1);
    MatchingHas(tables[0], stay, 0);
    SuffixOfTable(all, k);
  }

  lemma SuffixOfTable(all: seq<Row>, k: nat)
    requires Table(all) && k <= |all|
    ensures Table(all[k..]) && (all[k..] == all <==> k == 0)
  {
  }
}
