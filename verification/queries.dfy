/** The read-only endpoints of server/index.js: the source list with its
    total, the open receivables, and the paginated ledger history. Each is a
    function of the database and returns a view, so none changes state. */
module Queries {
  import opened Wrappers
  import opened Schema
  import opened Ordering

  /** Reference definition: the sum of the balances, first row first. */
  function Sum(rows: seq<Source>): Amount {
    if |rows| == 0 then 0.0 else rows[0].balance + Sum(rows[1..])
  }

  /** `rows.reduce((sum, source) => sum + source.balance, acc)`. */
  function Reduce(rows: seq<Source>, acc: Amount): Amount {
    if |rows| == 0 then acc else Reduce(rows[1..], acc + rows[0].balance)
  }

  lemma {:induction false} ReduceIsSum(rows: seq<Source>, acc: Amount)
    ensures Reduce(rows, acc) == acc + Sum(rows)
    decreases |rows|
  {
    if |rows| > 0 {
      ReduceIsSum(rows[1..], acc + rows[0].balance);
    }
  }

  datatype SourcesView = SourcesView(sources: seq<Source>, total: Amount)

  /** GET /api/sources: every source row, and the reduced total of their balances. */
  function ListSources(db: Db): (v: SourcesView)
    ensures v.sources == db.sources
    ensures v.total == Sum(db.sources)
  {
    ReduceIsSum(db.sources, 0.0);
    SourcesView(db.sources, Reduce(db.sources, 0.0))
  }

  /** `WHERE is_settled = 0`, in rowid order: each unsettled row exactly as
      often as in the table, and no settled row. */
  function Unsettled(rows: seq<Receivable>): (r: seq<Receivable>)
    ensures forall x :: x in r <==> x in rows && !x.settled
    ensures forall x :: multiset(r)[x] == if x.settled then 0 else multiset(rows)[x]
    ensures |r| <= |rows|
  {
    if |rows| == 0 then []
    else
      assert rows == [rows[0]] + rows[1..];
      (if rows[0].settled then [] else [rows[0]]) + Unsettled(rows[1..])
  }

  function CreatedAt(r: Receivable): int {
    r.createdAt
  }

  /** GET /api/receivables: the unsettled receivables, newest `created_at` first. */
  function OpenReceivables(db: Db): (r: seq<Receivable>)
    ensures forall x :: x in r <==> x in db.receivables && !x.settled
    ensures forall x :: multiset(r)[x] == if x.settled then 0 else multiset(db.receivables)[x]
    ensures Descending(r, CreatedAt)
  {
    var open := Unsettled(db.receivables);
    var r := SortDesc(open, CreatedAt);
    assert forall x :: x in r <==> x in multiset(open);
    r
  }

  /** `parseInt(param) || fallback`: NaN (None) and 0 are falsy and give the fallback. */
  function OrDefault(parsed: Option<int>, fallback: int): (r: int)
    ensures parsed.Some? && parsed.value != 0 ==> r == parsed.value
    ensures parsed.None? || parsed.value == 0 ==> r == fallback
  {
    match parsed
    case Some(v) => if v != 0 then v else fallback
    case None => fallback
  }

  /** `Math.ceil(a / b)` for a whole-number count `a` and a non-zero divisor. */
  function CeilDiv(a: nat, b: int): (q: int)
    requires b != 0
    ensures b > 0 ==> (q - 1) * b < a <= q * b
    ensures b < 0 ==> q * b <= a < (q - 1) * b
  {
    if b > 0 then (a + b - 1) / b else -(a / -b)
  }

  /** SQLite's `LIMIT limit OFFSET offset`: a negative offset counts as 0 and a negative limit means no limit. */
  function Window<T>(s: seq<T>, limit: int, offset: int): (r: seq<T>)
    ensures var start := if offset < 0 then 0 else offset;
            && |r| == (if start >= |s| then 0
                       else if limit < 0 || |s| - start < limit then |s| - start
                       else limit)
            && forall k :: 0 <= k < |r| ==> r[k] == s[start + k]
  {
    var start := if offset < 0 then 0 else offset;
    if start >= |s| then []
    else if limit < 0 then s[start..]
    else s[start..if start + limit < |s| then start + limit else |s|]
  }

  /** `COALESCE(s.name, 'Unknown')` over `LEFT JOIN sources s ON t.source_id = s.id`. */
  function SourceName(sources: seq<Source>, sid: Option<int>): (n: string)
    ensures FindSource(sources, sid).Some? ==> n == FindSource(sources, sid).value.name
    ensures (forall i :: 0 <= i < |sources| ==> !IsSource(sources[i], sid)) ==> n == "Unknown"
  {
    match FindSource(sources, sid)
    case Some(s) => s.name
    case None => "Unknown"
  }

  function Date(t: Txn): int {
    t.date
  }

  datatype HistoryRow = HistoryRow(txn: Txn, sourceName: string)

  datatype Pagination = Pagination(page: int, limit: int, totalRecords: nat, totalPages: int)

  datatype HistoryPage = HistoryPage(data: seq<HistoryRow>, pagination: Pagination)

  /** The ledger rows of a page, without their source names. */
  function Txns(rows: seq<HistoryRow>): (r: seq<Txn>)
    ensures |r| == |rows|
    ensures forall k :: 0 <= k < |rows| ==> r[k] == rows[k].txn
  {
    if |rows| == 0 then [] else [rows[0].txn] + Txns(rows[1..])
  }

  /** Each ledger row with `source_name` joined on. */
  function Enrich(sources: seq<Source>, rows: seq<Txn>): (r: seq<HistoryRow>)
    ensures Txns(r) == rows
    ensures forall k :: 0 <= k < |r| ==> r[k].sourceName == SourceName(sources, rows[k].sourceId)
  {
    if |rows| == 0 then []
    else [HistoryRow(rows[0], SourceName(sources, rows[0].sourceId))] + Enrich(sources, rows[1..])
  }

  /** The first row of page `page`: `(page - 1) * limit`, with SQLite reading a negative offset as 0. */
  function Start(page: int, limit: int): nat {
    var offset := (page - 1) * limit;
    if offset < 0 then 0 else offset
  }

  /** GET /api/history: `page` and `limit` default to 1 and 10; the page is
      the window at offset (page - 1) * limit of the ledger ordered by date,
      newest first, each row carrying its source's name (see `HistoryNames`). */
  function History(db: Db, pageParam: Option<int>, limitParam: Option<int>): (h: HistoryPage)
    ensures h.pagination.page == OrDefault(pageParam, 1)
    ensures h.pagination.limit == OrDefault(limitParam, 10)
    ensures h.pagination.totalRecords == |db.transactions|
    ensures h.pagination.totalPages == CeilDiv(|db.transactions|, h.pagination.limit)
    ensures Txns(h.data)
            == Window(SortDesc(db.transactions, Date), h.pagination.limit, Start(h.pagination.page, h.pagination.limit))
  {
    var page := OrDefault(pageParam, 1);
    var limit := OrDefault(limitParam, 10);
    var sorted := SortDesc(db.transactions, Date);
    var rows := Window(sorted, limit, Start(page, limit));
    var pagination := Pagination(page, limit, |db.transactions|, CeilDiv(|db.transactions|, limit));
    HistoryPage(Enrich(db.sources, rows), pagination)
  }

  /** Every history row carries the name of the source it references, or 'Unknown'. */
  lemma HistoryNames(db: Db, pageParam: Option<int>, limitParam: Option<int>)
    ensures var h := History(db, pageParam, limitParam);
            forall k :: 0 <= k < |h.data| ==>
              && (FindSource(db.sources, h.data[k].txn.sourceId).Some? ==>
                    h.data[k].sourceName == FindSource(db.sources, h.data[k].txn.sourceId).value.name)
              && ((forall i :: 0 <= i < |db.sources| ==> !IsSource(db.sources[i], h.data[k].txn.sourceId)) ==>
                    h.data[k].sourceName == "Unknown")
  {
    var h := History(db, pageParam, limitParam);
    forall k | 0 <= k < |h.data|
      ensures h.data[k].sourceName == SourceName(db.sources, h.data[k].txn.sourceId)
    {
      assert Txns(h.data)[k] == h.data[k].txn;
    }
  }
}
