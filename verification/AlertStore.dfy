/** Listing persisted alerts with cursors, and what following the cursors enumerates. */
module AlertStore {
  import opened Options

  /** A persisted alert: what queries look at, and the rest of the row. */
  datatype Alert = Alert(id: int, createdAt: int, riskLabel: string, body: string)

  /** Ids are primary keys. */
  ghost predicate UniqueIds(rows: set<Alert>) {
    forall a, b | a in rows && b in rows && a.id == b.id :: a == b
  }

  // -------------------------------------------------------------------- queries

  /** The query string, once numbers have been read. */
  datatype Request = Request(limit: Option<int>, sinceId: Option<int>, beforeId: Option<int>, riskLabel: Option<string>)

  const DEFAULT_LIMIT := 50

  datatype Order = OldestFirst | NewestFirst | ByCreation

  /** Rows between the cursors that carry the risk label, in the order, at most `limit` of them. */
  datatype Query =
    | BadRequest
    | Select(above: Option<int>, below: Option<int>, risk: Option<string>, order: Order, limit: nat)

  function Plan(r: Request): Query {
    var limit := r.limit.GetOr(DEFAULT_LIMIT);
    if !(1 <= limit <= 500) then BadRequest
    else if r.sinceId.Some? && r.sinceId.value < 0 then BadRequest
    else if r.beforeId.Some? && r.beforeId.value < 1 then BadRequest
    else if r.riskLabel.Some? && |r.riskLabel.value| > 32 then BadRequest
    else if r.sinceId.Some? && r.beforeId.Some? then BadRequest
    else if r.sinceId.Some? then Select(r.sinceId, None, r.riskLabel, OldestFirst, limit)
    else if r.beforeId.Some? then Select(None, r.beforeId, r.riskLabel, NewestFirst, limit)
    else Select(None, None, r.riskLabel, ByCreation, limit)
  }

  predicate Precedes(order: Order, a: Alert, b: Alert) {
    match order
    case OldestFirst => a.id < b.id
    case NewestFirst => a.id > b.id
    case ByCreation => a.createdAt > b.createdAt || (a.createdAt == b.createdAt && a.id > b.id)
  }

  predicate Labelled(a: Alert, risk: Option<string>) {
    risk.Some? ==> a.riskLabel == risk.value
  }

  predicate Selected(a: Alert, above: Option<int>, below: Option<int>, risk: Option<string>) {
    && (above.Some? ==> a.id > above.value)
    && (below.Some? ==> a.id < below.value)
    && Labelled(a, risk)
  }

  function Matching(rows: set<Alert>, above: Option<int>, below: Option<int>, risk: Option<string>): set<Alert> {
    set a | a in rows && Selected(a, above, below, risk)
  }

  /** The page is the first rows of the selection, `limit` of them if there are that many. */
  ghost predicate Page(selection: set<Alert>, order: Order, limit: nat, page: seq<Alert>) {
    && |page| <= limit
    && (forall i | 0 <= i < |page| :: page[i] in selection)
    && Sorted(order, page)
    && (forall a | a in selection && a !in page :: |page| == limit && AllPrecede(order, page, a))
  }

  ghost predicate Sorted(order: Order, page: seq<Alert>) {
    forall i, j | 0 <= i < j < |page| :: Precedes(order, page[i], page[j])
  }

  ghost predicate AllPrecede(order: Order, page: seq<Alert>, a: Alert) {
    forall i | 0 <= i < |page| :: Precedes(order, page[i], a)
  }

  /** The database answers a request with the page: nothing for a bad request, else its first matching rows. */
  ghost predicate Answers(rows: set<Alert>, r: Request, page: seq<Alert>) {
    match Plan(r)
    case BadRequest => false
    case Select(above, below, risk, order, limit) => Page(Matching(rows, above, below, risk), order, limit, page)
  }

  // ------------------------------------------------------------ pages of a page

  lemma {:induction false} Transitive(order: Order, a: Alert, b: Alert, c: Alert)
    requires Precedes(order, a, b) && Precedes(order, b, c)
    ensures Precedes(order, a, c)
  {
  }

  /** In a sorted page each row stands once, so it has as many rows as its set of rows. */
  lemma {:induction false} SortedIsDistinct(order: Order, page: seq<Alert>)
    requires Sorted(order, page)
    ensures |set a | a in page| == |page|
    decreases |page|
  {
    if page != [] {
      var before, last := page[..|page| - 1], page[|page| - 1];
      SortedIsDistinct(order, before);
      LastIsNew(order, before, last);
      assert page == before + [last];
      assert (set a | a in page) == (set a | a in before) + {last};
    }
  }

  lemma {:induction false} LastIsNew(order: Order, before: seq<Alert>, last: Alert)
    requires Sorted(order, before + [last])
    ensures last !in before
  {
    forall i | 0 <= i < |before|
      ensures before[i] != last
    {
      assert Precedes(order, (before + [last])[i], (before + [last])[|before|]);
    }
  }

  lemma {:induction false} SubsetSize(a: set<Alert>, b: set<Alert>)
    requires a <= b
    ensures |a| <= |b| && (|a| == |b| ==> a == b)
  {
    assert b == a + (b - a);
  }

  /** A page is as long as the limit and the selection allow. */
  lemma {:induction false} PageLength(selection: set<Alert>, order: Order, limit: nat, page: seq<Alert>)
    requires Page(selection, order, limit, page)
    ensures |page| == if |selection| < limit then |selection| else limit
  {
    var shown := set a | a in page;
    SortedIsDistinct(order, page);
    SubsetSize(shown, selection);
    if |page| < limit {
      assert shown == selection;
    }
  }

  /** What comes after a page; after an empty one everything does. */
  function After(selection: set<Alert>, order: Order, page: seq<Alert>): set<Alert> {
    set a | a in selection && (page != [] ==> Precedes(order, page[|page| - 1], a))
  }

  lemma {:induction false} LastPrecedesAll(order: Order, page: seq<Alert>, a: Alert)
    requires Sorted(order, page) && page != [] && Precedes(order, page[|page| - 1], a)
    ensures AllPrecede(order, page, a)
  {
    forall i | 0 <= i < |page| - 1
      ensures Precedes(order, page[i], a)
    {
      Transitive(order, page[i], page[|page| - 1], a);
    }
  }

  lemma {:induction false} SortedJoin(order: Order, page: seq<Alert>, next: seq<Alert>)
    requires Sorted(order, page) && Sorted(order, next)
    requires forall j | 0 <= j < |next| :: AllPrecede(order, page, next[j])
    ensures Sorted(order, page + next)
  {
  }

  /** Where a page of n rows ends, a page of m more continues it to a page of n + m. */
  lemma {:induction false} PagesJoin(selection: set<Alert>, order: Order, n: nat, m: nat, page: seq<Alert>,
      next: seq<Alert>)
    requires Page(selection, order, n, page)
    requires page == [] ==> n == 0 || selection == {}
    requires Page(After(selection, order, page), order, m, next)
    ensures Page(selection, order, n + m, page + next)
  {
    forall j | 0 <= j < |next|
      ensures AllPrecede(order, page, next[j])
    {
      if page != [] {
        LastPrecedesAll(order, page, next[j]);
      }
    }
    SortedJoin(order, page, next);
    forall a | a in selection && a !in page + next
      ensures |page + next| == n + m && AllPrecede(order, page + next, a)
    {
      LeftOutJoin(selection, order, n, m, page, next, a);
    }
  }

  lemma {:induction false} LeftOutJoin(selection: set<Alert>, order: Order, n: nat, m: nat, page: seq<Alert>,
      next: seq<Alert>, a: Alert)
    requires Page(selection, order, n, page)
    requires page == [] ==> n == 0 || selection == {}
    requires Page(After(selection, order, page), order, m, next)
    requires a in selection && a !in page + next
    ensures |page + next| == n + m && AllPrecede(order, page + next, a)
  {
    assert a !in page && a !in next;
    assert a in After(selection, order, page);
  }

  /** A page with room for the whole selection shows all of it. */
  lemma {:induction false} FullPageShowsAll(selection: set<Alert>, order: Order, limit: nat, page: seq<Alert>)
    requires Page(selection, order, limit, page) && |selection| <= limit
    ensures (set a | a in page) == selection
  {
    PageLength(selection, order, limit, page);
    SortedIsDistinct(order, page);
    SubsetSize((set a | a in page), selection);
  }

  lemma {:induction false} ShownBefore(selection: set<Alert>, order: Order, limit: nat, page: seq<Alert>, i: nat)
    requires UniqueIds(selection) && Page(selection, order, limit, page) && i < |page|
    ensures (set b | b in selection && Precedes(order, b, page[i])) == (set b | b in page[..i])
  {
    forall b | b in selection && Precedes(order, b, page[i])
      ensures b in page[..i]
    {
      if b in page {
        var j :| 0 <= j < |page| && page[j] == b;
        assert j < i;
        assert page[..i][j] == b;
      }
    }
    forall b | b in page[..i]
      ensures b in selection && Precedes(order, b, page[i])
    {
      var j :| 0 <= j < i && page[..i][j] == b;
      assert page[j] == b;
    }
  }

  /** A row is on the page exactly when fewer than `limit` rows come before it. */
  lemma {:induction false} OnPageIffRankedIn(selection: set<Alert>, order: Order, limit: nat, page: seq<Alert>,
      a: Alert)
    requires UniqueIds(selection) && Page(selection, order, limit, page) && a in selection
    ensures a in page <==> |set b | b in selection && Precedes(order, b, a)| < limit
  {
    var earlier := set b | b in selection && Precedes(order, b, a);
    if a in page {
      var i :| 0 <= i < |page| && page[i] == a;
      ShownBefore(selection, order, limit, page, i);
      assert Sorted(order, page[..i]);
      SortedIsDistinct(order, page[..i]);
    } else {
      var shown := set b | b in page;
      SortedIsDistinct(order, page);
      SubsetSize(shown, earlier);
    }
  }

  // ------------------------------------------------------------- chains of pages

  /** All rows of the pages, in the order they were received. */
  function Feed(pages: seq<seq<Alert>>): seq<Alert> {
    if pages == [] then [] else Feed(pages[..|pages| - 1]) + pages[|pages| - 1]
  }

  /** Each page continues where the pages before it ended. */
  ghost predicate Chain(selection: set<Alert>, order: Order, limit: nat, pages: seq<seq<Alert>>) {
    forall k | 0 <= k < |pages| :: Page(After(selection, order, Feed(pages[..k])), order, limit, pages[k])
  }

  lemma {:induction false} PrefixChain(selection: set<Alert>, order: Order, limit: nat, pages: seq<seq<Alert>>, n: nat)
    requires Chain(selection, order, limit, pages) && n <= |pages|
    ensures Chain(selection, order, limit, pages[..n])
  {
    forall k | 0 <= k < n
      ensures Page(After(selection, order, Feed(pages[..n][..k])), order, limit, pages[..n][k])
    {
      assert pages[..n][..k] == pages[..k];
    }
  }

  /** How many rows k full pages hold. */
  function Quota(k: nat, limit: nat): nat {
    k * limit
  }

  lemma {:induction false} OneMorePage(k: nat, limit: nat)
    ensures Quota(k, limit) + limit == Quota(k + 1, limit)
  {
  }

  /** A chain of k pages is one page of k times the limit. */
  lemma {:induction false} ChainIsPage(selection: set<Alert>, order: Order, limit: nat, pages: seq<seq<Alert>>)
    requires Chain(selection, order, limit, pages)
    ensures Page(selection, order, Quota(|pages|, limit), Feed(pages))
    decreases |pages|
  {
    if pages != [] {
      var k := |pages| - 1;
      var before := pages[..k];
      PrefixChain(selection, order, limit, pages, k);
      ChainIsPage(selection, order, limit, before);
      PageLength(selection, order, Quota(k, limit), Feed(before));
      OneMorePage(k, limit);
      PagesJoin(selection, order, Quota(k, limit), limit, Feed(before), pages[k]);
    }
  }

  /** The k-th page of a chain has rows exactly when the pages before it have not shown all of the selection. */
  lemma {:induction false} ChainPageNonempty(selection: set<Alert>, order: Order, limit: nat, pages: seq<seq<Alert>>,
      k: nat)
    requires Chain(selection, order, limit, pages) && k < |pages| && limit >= 1
    ensures pages[k] != [] <==> Quota(k, limit) < |selection|
  {
    PrefixChain(selection, order, limit, pages, k);
    PrefixChain(selection, order, limit, pages, k + 1);
    ChainIsPage(selection, order, limit, pages[..k]);
    ChainIsPage(selection, order, limit, pages[..k + 1]);
    PageLength(selection, order, Quota(k, limit), Feed(pages[..k]));
    PageLength(selection, order, Quota(k + 1, limit), Feed(pages[..k + 1]));
    OneMorePage(k, limit);
    assert pages[..k + 1][..k] == pages[..k];
  }

  // ------------------------------------------------------------------ delta polling

  /** The largest id seen, or the start before any. */
  function MaxSeen(start: int, seen: seq<Alert>): int {
    if seen == [] then start
    else
      var m := MaxSeen(start, seen[..|seen| - 1]);
      if seen[|seen| - 1].id > m then seen[|seen| - 1].id else m
  }

  /** Each poll asks for what is newer than the largest id seen so far. */
  ghost predicate Polling(rows: set<Alert>, start: int, limit: nat, risk: Option<string>, pages: seq<seq<Alert>>) {
    forall k | 0 <= k < |pages| ::
      Answers(rows, Request(Some(limit), Some(MaxSeen(start, Feed(pages[..k]))), None, risk), pages[k])
  }

  lemma {:induction false} MaxSeenIsLast(start: int, seen: seq<Alert>)
    requires forall i | 0 <= i < |seen| :: seen[i].id > start
    requires forall i, j | 0 <= i < j < |seen| :: seen[i].id < seen[j].id
    ensures MaxSeen(start, seen) == if seen == [] then start else seen[|seen| - 1].id
    decreases |seen|
  {
    if seen != [] {
      MaxSeenIsLast(start, seen[..|seen| - 1]);
    }
  }

  /** Asking for ids above the last one shown is asking for what comes after the page. */
  lemma {:induction false} NewerIsAfter(rows: set<Alert>, start: int, risk: Option<string>, n: nat, seen: seq<Alert>)
    requires Page(Matching(rows, Some(start), None, risk), OldestFirst, n, seen)
    ensures Matching(rows, Some(MaxSeen(start, seen)), None, risk)
            == After(Matching(rows, Some(start), None, risk), OldestFirst, seen)
  {
    MaxSeenIsLast(start, seen);
    var cursor := MaxSeen(start, seen);
    forall a
      ensures Selected(a, Some(cursor), None, risk)
              <==> Selected(a, Some(start), None, risk) && (seen != [] ==> Precedes(OldestFirst, seen[|seen| - 1], a))
    {
      SelectedAbove(a, start, cursor, risk);
    }
  }

  lemma {:induction false} SelectedAbove(a: Alert, start: int, cursor: int, risk: Option<string>)
    requires start <= cursor
    ensures Selected(a, Some(cursor), None, risk) <==> Selected(a, Some(start), None, risk) && a.id > cursor
  {
  }

  lemma {:induction false} PrefixPolling(rows: set<Alert>, start: int, limit: nat, risk: Option<string>,
      pages: seq<seq<Alert>>, n: nat)
    requires Polling(rows, start, limit, risk, pages) && n <= |pages|
    ensures Polling(rows, start, limit, risk, pages[..n])
  {
    forall k | 0 <= k < n
      ensures pages[..n][..k] == pages[..k]
    {
    }
  }

  lemma {:induction false} PollingIsChain(rows: set<Alert>, start: int, limit: nat, risk: Option<string>,
      pages: seq<seq<Alert>>)
    requires Polling(rows, start, limit, risk, pages)
    ensures Chain(Matching(rows, Some(start), None, risk), OldestFirst, limit, pages)
    decreases |pages|
  {
    var selection := Matching(rows, Some(start), None, risk);
    if pages != [] {
      var n := |pages| - 1;
      var before := pages[..n];
      PrefixPolling(rows, start, limit, risk, pages, n);
      PollingIsChain(rows, start, limit, risk, before);
      ChainIsPage(selection, OldestFirst, limit, before);
      NewerIsAfter(rows, start, risk, Quota(n, limit), Feed(before));
      ChainSnoc(selection, OldestFirst, limit, pages);
    }
  }

  lemma {:induction false} ChainSnoc(selection: set<Alert>, order: Order, limit: nat, pages: seq<seq<Alert>>)
    requires pages != [] && Chain(selection, order, limit, pages[..|pages| - 1])
    requires Page(After(selection, order, Feed(pages[..|pages| - 1])), order, limit, pages[|pages| - 1])
    ensures Chain(selection, order, limit, pages)
  {
    forall k | 0 <= k < |pages|
      ensures Page(After(selection, order, Feed(pages[..k])), order, limit, pages[k])
    {
      if k < |pages| - 1 {
        assert pages[..|pages| - 1][..k] == pages[..k];
        assert pages[..|pages| - 1][k] == pages[k];
      }
    }
  }

  /**
    Delta polling shows every matching row above the start exactly once, in ascending order of ids: k polls
    come to one page of k times the limit.
    */
  lemma {:induction false} PollingEnumerates(rows: set<Alert>, start: int, limit: nat, risk: Option<string>,
      pages: seq<seq<Alert>>)
    requires Polling(rows, start, limit, risk, pages)
    ensures Page(Matching(rows, Some(start), None, risk), OldestFirst, Quota(|pages|, limit), Feed(pages))
  {
    PollingIsChain(rows, start, limit, risk, pages);
    ChainIsPage(Matching(rows, Some(start), None, risk), OldestFirst, limit, pages);
  }

  /** A poll comes back empty exactly when the polls before it have shown all matching rows. */
  lemma {:induction false} PollingEndsWhenAllIsShown(rows: set<Alert>, start: int, limit: nat, risk: Option<string>,
      pages: seq<seq<Alert>>, k: nat)
    requires Polling(rows, start, limit, risk, pages) && limit >= 1 && k < |pages|
    ensures pages[k] != [] <==> Quota(k, limit) < |Matching(rows, Some(start), None, risk)|
  {
    PollingIsChain(rows, start, limit, risk, pages);
    ChainPageNonempty(Matching(rows, Some(start), None, risk), OldestFirst, limit, pages, k);
  }

  // -------------------------------------------------- polling while rows are committed

  /** The cursor of the k-th poll: the largest id that the polls before it have shown. */
  function Cursor(start: int, pages: seq<seq<Alert>>, k: nat): int
    requires k <= |pages|
  {
    MaxSeen(start, Feed(pages[..k]))
  }

  /** The table grows between the polls, and rows are committed in any order of ids. */
  ghost predicate LivePolling(tables: seq<set<Alert>>, start: int, limit: nat, risk: Option<string>,
      pages: seq<seq<Alert>>)
  {
    && |tables| == |pages|
    && (forall j, k | 0 <= j < k < |tables| :: tables[j] <= tables[k])
    && forall k | 0 <= k < |pages| ::
         Answers(tables[k], Request(Some(limit), Some(Cursor(start, pages, k)), None, risk), pages[k])
  }

  lemma {:induction false} LivePage(tables: seq<set<Alert>>, start: int, limit: nat, risk: Option<string>,
      pages: seq<seq<Alert>>, k: nat)
    requires LivePolling(tables, start, limit, risk, pages) && k < |pages|
    ensures Page(Matching(tables[k], Some(Cursor(start, pages, k)), None, risk), OldestFirst, limit, pages[k])
  {
    assert Answers(tables[k], Request(Some(limit), Some(Cursor(start, pages, k)), None, risk), pages[k]);
  }

  lemma {:induction false} MaxSeenJoin(start: int, seen: seq<Alert>, more: seq<Alert>)
    ensures MaxSeen(start, seen + more) == MaxSeen(MaxSeen(start, seen), more)
    decreases |more|
  {
    if more == [] {
      assert seen + more == seen;
    } else {
      assert (seen + more)[..|seen + more| - 1] == seen + more[..|more| - 1];
      MaxSeenJoin(start, seen, more[..|more| - 1]);
    }
  }

  lemma {:induction false} CursorOneMore(start: int, pages: seq<seq<Alert>>, k: nat)
    requires k < |pages|
    ensures Cursor(start, pages, k + 1) == MaxSeen(Cursor(start, pages, k), pages[k])
  {
    assert pages[..k + 1][..k] == pages[..k];
    MaxSeenJoin(start, Feed(pages[..k]), pages[k]);
  }

  /** A page moves the cursor to its last row. */
  lemma {:induction false} PageMovesCursor(tables: seq<set<Alert>>, start: int, limit: nat, risk: Option<string>,
      pages: seq<seq<Alert>>, k: nat)
    requires LivePolling(tables, start, limit, risk, pages) && k < |pages|
    ensures Cursor(start, pages, k + 1)
            == if pages[k] == [] then Cursor(start, pages, k) else pages[k][|pages[k]| - 1].id
    ensures Cursor(start, pages, k) <= Cursor(start, pages, k + 1)
  {
    LivePage(tables, start, limit, risk, pages, k);
    CursorOneMore(start, pages, k);
    PageIsAbove(tables[k], Cursor(start, pages, k), risk, limit, pages[k]);
    MaxSeenIsLast(Cursor(start, pages, k), pages[k]);
  }

  lemma {:induction false} PageIsAbove(rows: set<Alert>, cursor: int, risk: Option<string>, limit: nat,
      page: seq<Alert>)
    requires Page(Matching(rows, Some(cursor), None, risk), OldestFirst, limit, page)
    ensures forall i | 0 <= i < |page| :: page[i].id > cursor
    ensures forall i, j | 0 <= i < j < |page| :: page[i].id < page[j].id
  {
    forall i, j | 0 <= i < j < |page|
      ensures page[i].id < page[j].id
    {
      assert Precedes(OldestFirst, page[i], page[j]);
    }
  }

  /** The k-th poll moved the cursor past the row: from below its id to at least its id. */
  predicate PassedAt(start: int, pages: seq<seq<Alert>>, k: nat, a: Alert)
    requires k < |pages|
  {
    Cursor(start, pages, k) < a.id <= Cursor(start, pages, k + 1)
  }

  /** The poll that passes a row shows it exactly when the row was committed by then. */
  lemma {:induction false} PassedPageShows(tables: seq<set<Alert>>, start: int, limit: nat, risk: Option<string>,
      pages: seq<seq<Alert>>, k: nat, a: Alert)
    requires LivePolling(tables, start, limit, risk, pages) && k < |pages| && Labelled(a, risk)
    ensures a in pages[k] <==> PassedAt(start, pages, k, a) && a in tables[k]
  {
    var cursor, page := Cursor(start, pages, k), pages[k];
    LivePage(tables, start, limit, risk, pages, k);
    PageMovesCursor(tables, start, limit, risk, pages, k);
    PageIsAbove(tables[k], cursor, risk, limit, page);
    if a in page {
      var i :| 0 <= i < |page| && page[i] == a;
      assert page[i].id <= page[|page| - 1].id;
    }
  }

  lemma {:induction false} FeedHolds(pages: seq<seq<Alert>>, a: Alert)
    ensures a in Feed(pages) <==> exists k :: 0 <= k < |pages| && a in pages[k]
    decreases |pages|
  {
    if pages != [] {
      var n := |pages| - 1;
      FeedHolds(pages[..n], a);
      if a in Feed(pages[..n]) {
        var k :| 0 <= k < n && a in pages[..n][k];
        assert a in pages[k];
      }
      if k :| 0 <= k < |pages| && a in pages[k] {
        assert k < n ==> pages[..n][k] == pages[k];
      }
    }
  }

  /**
    However rows are committed between the polls, a matching row is shown if and only if it was committed when
    the poll that moved the cursor past its id ran.
    */
  lemma {:induction false} ShownIffCommittedInTime(tables: seq<set<Alert>>, start: int, limit: nat,
      risk: Option<string>, pages: seq<seq<Alert>>, a: Alert)
    requires LivePolling(tables, start, limit, risk, pages) && Labelled(a, risk)
    ensures a in Feed(pages) <==> exists k :: 0 <= k < |pages| && PassedAt(start, pages, k, a) && a in tables[k]
  {
    FeedHolds(pages, a);
    forall k | 0 <= k < |pages|
      ensures a in pages[k] <==> PassedAt(start, pages, k, a) && a in tables[k]
    {
      PassedPageShows(tables, start, limit, risk, pages, k, a);
    }
  }

  ghost predicate CursorsRise(start: int, pages: seq<seq<Alert>>) {
    forall k | 0 <= k < |pages| :: Cursor(start, pages, k) <= Cursor(start, pages, k + 1)
  }

  lemma {:induction false} LiveCursorsRise(tables: seq<set<Alert>>, start: int, limit: nat, risk: Option<string>,
      pages: seq<seq<Alert>>)
    requires LivePolling(tables, start, limit, risk, pages)
    ensures CursorsRise(start, pages)
  {
    forall k | 0 <= k < |pages|
      ensures Cursor(start, pages, k) <= Cursor(start, pages, k + 1)
    {
      PageMovesCursor(tables, start, limit, risk, pages, k);
    }
  }

  lemma {:induction false} CursorNeverFalls(start: int, pages: seq<seq<Alert>>, j: nat, k: nat)
    requires CursorsRise(start, pages) && j <= k <= |pages|
    ensures Cursor(start, pages, j) <= Cursor(start, pages, k)
    decreases k
  {
    if j < k {
      CursorNeverFalls(start, pages, j, k - 1);
      assert Cursor(start, pages, k - 1) <= Cursor(start, pages, k - 1 + 1);
    }
  }

  /** A row that was not committed when the cursor passed its id is missed for good, however long polling goes on. */
  lemma {:induction false} MissedForGood(tables: seq<set<Alert>>, start: int, limit: nat, risk: Option<string>,
      pages: seq<seq<Alert>>, k: nat, a: Alert)
    requires LivePolling(tables, start, limit, risk, pages) && Labelled(a, risk)
    requires k < |pages| && PassedAt(start, pages, k, a) && a !in tables[k]
    ensures a !in Feed(pages)
  {
    ShownIffCommittedInTime(tables, start, limit, risk, pages, a);
    LiveCursorsRise(tables, start, limit, risk, pages);
    forall m | 0 <= m < |pages| && PassedAt(start, pages, m, a)
      ensures m == k
    {
      if m < k {
        CursorNeverFalls(start, pages, m + 1, k);
      } else if k < m {
        CursorNeverFalls(start, pages, k + 1, m);
      }
    }
  }

  lemma {:induction false} TwoCursors(start: int, pages: seq<seq<Alert>>, b: Alert)
    requires start < b.id && |pages| == 2 && pages[0] == [b] && pages[1] == []
    ensures Cursor(start, pages, 0) == start && Cursor(start, pages, 1) == Cursor(start, pages, 2) == b.id
    ensures Feed(pages) == [b]
  {
    CursorOneMore(start, pages, 0);
    CursorOneMore(start, pages, 1);
    assert MaxSeen(start, [b][..0]) == start;
    assert Feed(pages[..1][..0]) == [] && pages[..1] == [[b]] && pages == pages[..1] + [[]];
    assert Feed(pages[..1]) == [] + [b];
  }

  lemma {:induction false} OnlyRowAnswers(start: nat, limit: nat, b: Alert)
    requires start < b.id && 1 <= limit <= 500
    ensures Answers({b}, Request(Some(limit), Some(start), None, None), [b])
  {
    assert Matching({b}, Some(start), None, None) == {b};
  }

  lemma {:induction false} NothingAnswers(limit: nat, a: Alert, b: Alert)
    requires 0 <= a.id < b.id && 1 <= limit <= 500
    ensures Answers({a, b}, Request(Some(limit), Some(b.id), None, None), [])
  {
    assert Matching({a, b}, Some(b.id), None, None) == {};
  }

  lemma {:induction false} TwoPolls(tables: seq<set<Alert>>, start: int, limit: nat, pages: seq<seq<Alert>>)
    requires |tables| == |pages| == 2 && tables[0] <= tables[1]
    requires Answers(tables[0], Request(Some(limit), Some(Cursor(start, pages, 0)), None, None), pages[0])
    requires Answers(tables[1], Request(Some(limit), Some(Cursor(start, pages, 1)), None, None), pages[1])
    ensures LivePolling(tables, start, limit, None, pages)
  {
  }

  /** It happens: a row with a lower id committed after a poll has shown a higher one is never shown. */
  lemma {:induction false} LateCommitIsMissed(start: nat, limit: nat, a: Alert, b: Alert, tables: seq<set<Alert>>,
      pages: seq<seq<Alert>>)
    requires start < a.id < b.id && 1 <= limit <= 500
    requires |tables| == |pages| == 2 && tables[0] == {b} && tables[1] == {a, b} && pages[0] == [b] && pages[1] == []
    ensures LivePolling(tables, start, limit, None, pages)
    ensures a in tables[1] && a !in Feed(pages) && Cursor(start, pages, 2) > a.id
  {
    TwoCursors(start, pages, b);
    OnlyRowAnswers(start, limit, b);
    NothingAnswers(limit, a, b);
    TwoPolls(tables, start, limit, pages);
  }

  /** No row is committed after one with a higher id. */
  ghost predicate CommittedInIdOrder(tables: seq<set<Alert>>) {
    forall j, k, a, b | 0 <= j < k < |tables| && a in tables[k] && a !in tables[j] && b in tables[j] :: b.id < a.id
  }

  lemma {:induction false} PassedSomewhere(start: int, pages: seq<seq<Alert>>, n: nat, a: Alert) returns (k: nat)
    requires n <= |pages| && start < a.id <= Cursor(start, pages, n)
    ensures k < n && PassedAt(start, pages, k, a)
  {
    assert Cursor(start, pages, 0) == start;
    k := n - 1;
    if Cursor(start, pages, n - 1) >= a.id {
      k := PassedSomewhere(start, pages, n - 1, a);
    }
  }

  lemma {:induction false} LowerIsCommitted(tables: seq<set<Alert>>, k: nat, a: Alert, b: Alert)
    requires CommittedInIdOrder(tables) && k < |tables| && b in tables[k]
    requires a in tables[|tables| - 1] && a.id <= b.id
    ensures a in tables[k]
  {
  }

  lemma {:induction false} PassedBy(tables: seq<set<Alert>>, start: int, limit: nat, risk: Option<string>,
      pages: seq<seq<Alert>>, k: nat, a: Alert) returns (b: Alert)
    requires LivePolling(tables, start, limit, risk, pages) && k < |pages| && PassedAt(start, pages, k, a)
    ensures b in tables[k] && a.id <= b.id
  {
    PageMovesCursor(tables, start, limit, risk, pages, k);
    LivePage(tables, start, limit, risk, pages, k);
    b := pages[k][|pages[k]| - 1];
  }

  /** Then polling shows every matching row up to its cursor, though the table grows all the while. */
  lemma {:induction false} OrderedCommitsAreShown(tables: seq<set<Alert>>, start: int, limit: nat,
      risk: Option<string>, pages: seq<seq<Alert>>, a: Alert)
    requires LivePolling(tables, start, limit, risk, pages) && Labelled(a, risk) && CommittedInIdOrder(tables)
    requires tables != [] && a in tables[|tables| - 1] && start < a.id <= Cursor(start, pages, |pages|)
    ensures a in Feed(pages)
  {
    var k := PassedSomewhere(start, pages, |pages|, a);
    var b := PassedBy(tables, start, limit, risk, pages, k, a);
    LowerIsCommitted(tables, k, a, b);
    ShownIffCommittedInTime(tables, start, limit, risk, pages, a);
  }

  // ------------------------------------------------------------- infinite scrolling

  /** The first page has no cursor, each later one asks for what is older than the bottom-most row. */
  ghost predicate Scrolling(rows: set<Alert>, limit: nat, risk: Option<string>, first: seq<Alert>,
      older: seq<seq<Alert>>) {
    && Answers(rows, Request(Some(limit), None, None, risk), first)
    && first != []
    && forall k | 0 <= k < |older| ::
         Answers(rows, Request(Some(limit), None, Some(Bottom(first, Feed(older[..k])).id), risk), older[k])
  }

  function Bottom(first: seq<Alert>, older: seq<Alert>): Alert
    requires first != []
  {
    if older == [] then first[|first| - 1] else older[|older| - 1]
  }

  lemma {:induction false} OlderIsAfter(rows: set<Alert>, risk: Option<string>, first: seq<Alert>, n: nat,
      older: seq<Alert>)
    requires first != []
    requires Page(Matching(rows, None, Some(first[|first| - 1].id), risk), NewestFirst, n, older)
    ensures Matching(rows, None, Some(Bottom(first, older).id), risk)
            == After(Matching(rows, None, Some(first[|first| - 1].id), risk), NewestFirst, older)
  {
    var top, bottom := first[|first| - 1].id, Bottom(first, older).id;
    forall a
      ensures Selected(a, None, Some(bottom), risk)
              <==> Selected(a, None, Some(top), risk) && (older != [] ==> Precedes(NewestFirst, older[|older| - 1], a))
    {
      BottomIsLower(first, older, top);
    }
  }

  lemma {:induction false} BottomIsLower(first: seq<Alert>, older: seq<Alert>, top: int)
    requires first != [] && top == first[|first| - 1].id
    requires forall i | 0 <= i < |older| :: older[i].id < top
    ensures if older == [] then Bottom(first, older).id == top
            else Bottom(first, older).id == older[|older| - 1].id < top
  {
  }

  lemma {:induction false} PrefixScrolling(rows: set<Alert>, limit: nat, risk: Option<string>, first: seq<Alert>,
      older: seq<seq<Alert>>, n: nat)
    requires Scrolling(rows, limit, risk, first, older) && n <= |older|
    ensures Scrolling(rows, limit, risk, first, older[..n])
  {
    forall k | 0 <= k < n
      ensures older[..n][..k] == older[..k]
    {
    }
  }

  lemma {:induction false} OlderPage(rows: set<Alert>, limit: nat, risk: Option<string>, first: seq<Alert>,
      older: seq<seq<Alert>>, k: nat)
    requires Scrolling(rows, limit, risk, first, older) && k < |older|
    ensures Page(Matching(rows, None, Some(Bottom(first, Feed(older[..k])).id), risk), NewestFirst, limit, older[k])
  {
  }

  /** The later pages show, newest first, exactly the rows with ids below the last row of the first page. */
  lemma {:induction false} ScrollingIsChain(rows: set<Alert>, limit: nat, risk: Option<string>, first: seq<Alert>,
      older: seq<seq<Alert>>)
    requires Scrolling(rows, limit, risk, first, older)
    ensures Chain(Matching(rows, None, Some(first[|first| - 1].id), risk), NewestFirst, limit, older)
    decreases |older|
  {
    var selection := Matching(rows, None, Some(first[|first| - 1].id), risk);
    if older != [] {
      var n := |older| - 1;
      PrefixScrolling(rows, limit, risk, first, older, n);
      ScrollingIsChain(rows, limit, risk, first, older[..n]);
      ChainIsPage(selection, NewestFirst, limit, older[..n]);
      OlderIsAfter(rows, risk, first, Quota(n, limit), Feed(older[..n]));
      OlderPage(rows, limit, risk, first, older, n);
      ChainSnoc(selection, NewestFirst, limit, older);
    }
  }

  /** Rows were created in the order of their ids. */
  ghost predicate CreatedInIdOrder(rows: set<Alert>) {
    forall a, b | a in rows && b in rows && a.id < b.id :: a.createdAt <= b.createdAt
  }

  /** Then newest first by creation is newest first by id. */
  lemma {:induction false} CreationOrderIsIdOrder(rows: set<Alert>, risk: Option<string>, limit: nat, page: seq<Alert>)
    requires UniqueIds(rows) && CreatedInIdOrder(rows)
    requires Page(Matching(rows, None, None, risk), ByCreation, limit, page)
    ensures Page(Matching(rows, None, None, risk), NewestFirst, limit, page)
  {
    forall a, b | a in rows && b in rows && Precedes(ByCreation, a, b)
      ensures Precedes(NewestFirst, a, b)
    {
    }
  }

  lemma {:induction false} SelectedBelow(a: Alert, top: int, risk: Option<string>)
    ensures Selected(a, None, Some(top), risk) <==> Selected(a, None, None, risk) && a.id < top
  {
  }

  /** Rows below the last id of a page by id are those that come after the page. */
  lemma {:induction false} BelowIsAfter(rows: set<Alert>, risk: Option<string>, first: seq<Alert>)
    requires first != []
    ensures Matching(rows, None, Some(first[|first| - 1].id), risk)
            == After(Matching(rows, None, None, risk), NewestFirst, first)
  {
    var last := first[|first| - 1];
    forall a
      ensures Selected(a, None, Some(last.id), risk)
              <==> Selected(a, None, None, risk) && Precedes(NewestFirst, last, a)
    {
      SelectedBelow(a, last.id, risk);
    }
  }

  /** If rows were created in id order, scrolling shows every matching row exactly once, newest id first. */
  lemma {:induction false} ScrollingEnumerates(rows: set<Alert>, limit: nat, risk: Option<string>, first: seq<Alert>,
      older: seq<seq<Alert>>)
    requires UniqueIds(rows) && CreatedInIdOrder(rows) && Scrolling(rows, limit, risk, first, older)
    ensures Page(Matching(rows, None, None, risk), NewestFirst, limit + Quota(|older|, limit), first + Feed(older))
  {
    ScrollingIsChain(rows, limit, risk, first, older);
    ChainIsPage(Matching(rows, None, Some(first[|first| - 1].id), risk), NewestFirst, limit, older);
    CreationOrderIsIdOrder(rows, risk, limit, first);
    BelowIsAfter(rows, risk, first);
    PagesJoin(Matching(rows, None, None, risk), NewestFirst, limit, Quota(|older|, limit), first, Feed(older));
  }

  /**
    Whatever the creation times: scrolled to the end, no matching row is missing if and only if every row
    that the first page left out has an id below that page's last row, and no row comes twice if and only
    if no row of the first page has.
    */
  lemma {:induction false} ScrollingExactly(rows: set<Alert>, limit: nat, risk: Option<string>, first: seq<Alert>,
      older: seq<seq<Alert>>)
    requires Scrolling(rows, limit, risk, first, older)
    requires Quota(|older|, limit) >= |Matching(rows, None, Some(first[|first| - 1].id), risk)|
    ensures var selection := Matching(rows, None, None, risk);
            var last := first[|first| - 1];
            && ((forall a | a in selection :: a in first || a in Feed(older))
                <==> forall a | a in selection && a !in first :: a.id < last.id)
            && ((forall a | a in first :: a !in Feed(older)) <==> forall a | a in first :: a.id >= last.id)
  {
    var last := first[|first| - 1];
    var rest := Matching(rows, None, Some(last.id), risk);
    ScrollingIsChain(rows, limit, risk, first, older);
    ChainIsPage(rest, NewestFirst, limit, older);
    FullPageShowsAll(rest, NewestFirst, Quota(|older|, limit), Feed(older));
    forall a
      ensures a in Feed(older) <==> a in rest
    {
      assert a in (set x | x in Feed(older)) <==> a in Feed(older);
    }
  }

  /** A clock that runs back hides a row: created last but numbered first, it is the only one scrolling ever shows. */
  lemma {:induction false} SkewedClockHidesRow()
    ensures var early, late := Alert(1, 5, "high", ""), Alert(2, 3, "high", "");
            && Scrolling({early, late}, 1, None, [early], [[]])
            && late !in [early] + Feed([[]])
  {
    var early, late := Alert(1, 5, "high", ""), Alert(2, 3, "high", "");
    var rows := {early, late};
    assert Matching(rows, None, None, None) == rows;
    assert Matching(rows, None, Some(1), None) == {};
    assert Feed([[]][..0]) == [];
    assert Feed([[]]) == [];
  }
}
