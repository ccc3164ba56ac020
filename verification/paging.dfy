/** Properties of GET /api/history's pagination: each page is in date
    order, drawn from the ledger, and the pages 1 .. totalPages split the
    date-ordered ledger into consecutive windows that cover every row, and
    in a database with valid ids show no row twice. */
module Paging {
  import opened Wrappers
  import opened Schema
  import opened Ordering
  import opened Queries

  /** A LIMIT/OFFSET window of a descending sequence is descending and drawn from it. */
  lemma WindowOfDescending<T>(s: seq<T>, key: T -> int, limit: int, offset: int)
    requires Descending(s, key)
    ensures Descending(Window(s, limit, offset), key)
    ensures forall x :: x in Window(s, limit, offset) ==> x in s
  {
    var w := Window(s, limit, offset);
    var start := if offset < 0 then 0 else offset;
    forall i, j | 0 <= i < j < |w|
      ensures key(w[i]) >= key(w[j])
    {
      assert w[i] == s[start + i] && w[j] == s[start + j];
    }
    forall x | x in w
      ensures x in s
    {
      var k :| 0 <= k < |w| && w[k] == x;
      assert w[k] == s[start + k];
    }
  }

  /** A page lists existing ledger rows, newest date first. */
  lemma HistoryNewestFirst(db: Db, pageParam: Option<int>, limitParam: Option<int>)
    ensures var h := History(db, pageParam, limitParam);
            && (forall i, j :: 0 <= i < j < |h.data| ==> h.data[i].txn.date >= h.data[j].txn.date)
            && (forall k :: 0 <= k < |h.data| ==> h.data[k].txn in db.transactions)
  {
    var h := History(db, pageParam, limitParam);
    var sorted := SortDesc(db.transactions, Date);
    var w := Txns(h.data);
    WindowOfDescending(sorted, Date, h.pagination.limit, Start(h.pagination.page, h.pagination.limit));
    forall i, j | 0 <= i < j < |h.data|
      ensures h.data[i].txn.date >= h.data[j].txn.date
    {
      assert Date(w[i]) >= Date(w[j]);
    }
    forall k | 0 <= k < |h.data|
      ensures h.data[k].txn in db.transactions
    {
      assert w[k] in w;
      assert w[k] in multiset(sorted);
    }
  }

  lemma MulMono(a: int, b: int, c: int)
    requires a <= b && 0 < c
    ensures a * c <= b * c
  {
    assert b * c - a * c == (b - a) * c;
  }

  /** Page `page` starts inside `n` rows exactly when `page` is at most ceil(n / limit). */
  lemma PageStartsInside(n: nat, limit: int, page: int)
    requires 0 < limit && 1 <= page
    ensures (page - 1) * limit < n <==> page <= CeilDiv(n, limit)
  {
    var total := CeilDiv(n, limit);
    if page <= total {
      MulMono(page - 1, total - 1, limit);
    } else {
      MulMono(total, page - 1, limit);
    }
  }

  /** Row k sits at position k % limit of page k / limit + 1. */
  lemma PageOfRow(k: nat, limit: int) returns (page: int, m: int)
    requires 0 < limit
    ensures 1 <= page && 0 <= m < limit
    ensures Start(page, limit) + m == k
  {
    page, m := k / limit + 1, k % limit;
    MulMono(0, k / limit, limit);
  }

  /** A page that starts inside the ledger is numbered at most totalPages. */
  lemma PageWithinTotal(db: Db, limit: int, page: int)
    requires 0 < limit && 1 <= page
    requires Start(page, limit) < |db.transactions|
    ensures page <= History(db, Some(page), Some(limit)).pagination.totalPages
  {
    MulMono(0, page - 1, limit);
    PageStartsInside(|db.transactions|, limit, page);
  }

  /** Row m of page `page` is row k = Start(page, limit) + m of the date-ordered ledger. */
  lemma RowOnPage(db: Db, limit: int, k: int, page: int, m: int)
    requires 0 < limit && 1 <= page && 0 <= m < limit
    requires k == Start(page, limit) + m < |db.transactions|
    ensures var h := History(db, Some(page), Some(limit));
            && m < |h.data|
            && h.data[m].txn == SortDesc(db.transactions, Date)[k]
  {
    var sorted := SortDesc(db.transactions, Date);
    var start := Start(page, limit);
    var w := Window(sorted, limit, start);
    assert m < |w| && w[m] == sorted[k];
    var h := History(db, Some(page), Some(limit));
    assert h.pagination.page == page && h.pagination.limit == limit;
    assert Txns(h.data) == w;
    assert h.data[m].txn == w[m];
  }

  /** Row k of the date-ordered ledger is row m of page `page`, and that page is one of 1 .. totalPages. */
  ghost predicate ShownAt(db: Db, limit: int, k: int, page: int, m: int) {
    var h := History(db, Some(page), Some(limit));
    && 0 <= k < |db.transactions|
    && 1 <= page <= h.pagination.totalPages
    && 0 <= m < |h.data|
    && h.data[m].txn == SortDesc(db.transactions, Date)[k]
  }

  lemma ShownOnPage(db: Db, limit: int, k: int, page: int, m: int)
    requires 0 < limit && 1 <= page && 0 <= m < limit
    requires k == Start(page, limit) + m < |db.transactions|
    ensures ShownAt(db, limit, k, page, m)
  {
    PageWithinTotal(db, limit, page);
    RowOnPage(db, limit, k, page, m);
  }

  /** With a positive limit, every row of the date-ordered ledger appears
      on one of pages 1 .. totalPages (row k is row k % limit of page k / limit + 1). */
  lemma EveryRowOnItsPage(db: Db, limit: int, k: int)
    requires 0 < limit && 0 <= k < |db.transactions|
    ensures exists page, m :: ShownAt(db, limit, k, page, m)
  {
    var page, m := PageOfRow(k, limit);
    ShownOnPage(db, limit, k, page, m);
  }

  /** With a positive limit, distinct (page, position) pairs show distinct
      rows of the date-ordered ledger, so no row is shown on two pages. */
  lemma {:induction false} PositionsAreDistinct(limit: int, p1: int, m1: int, p2: int, m2: int)
    requires 0 < limit && 1 <= p1 && 1 <= p2 && 0 <= m1 < limit && 0 <= m2 < limit
    requires Start(p1, limit) + m1 == Start(p2, limit) + m2
    ensures p1 == p2 && m1 == m2
  {
    MulMono(0, p1 - 1, limit);
    MulMono(0, p2 - 1, limit);
    if p1 < p2 {
      MulMono(p1, p2 - 1, limit);
      assert false;
    } else if p2 < p1 {
      MulMono(p2, p1 - 1, limit);
      assert false;
    }
  }

  /** Rows of distinct ids are distinct, so each occurs at most once. */
  lemma {:induction false} DistinctCount<T>(s: seq<T>, x: T)
    requires forall i, j :: 0 <= i < j < |s| ==> s[i] != s[j]
    ensures multiset(s)[x] <= 1
    decreases |s|
  {
    if |s| > 0 {
      assert s == [s[0]] + s[1..];
      DistinctCount(s[1..], x);
      if s[0] == x {
        assert forall k :: 0 <= k < |s[1..]| ==> s[1..][k] == s[k + 1] != x;
        assert x !in s[1..];
      }
    }
  }

  /** A value at two positions occurs at least twice. */
  lemma RepeatCount<T>(t: seq<T>, i: int, j: int)
    requires 0 <= i < j < |t| && t[i] == t[j]
    ensures multiset(t)[t[i]] >= 2
  {
    assert t == t[..i] + [t[i]] + t[i + 1..j] + [t[j]] + t[j + 1..];
  }

  /** In a well-formed database, the date-ordered ledger lists no row twice. */
  lemma SortedRowsDistinct(db: Db, k1: int, k2: int)
    requires WellFormed(db)
    requires 0 <= k1 < k2 < |db.transactions|
    ensures SortDesc(db.transactions, Date)[k1] != SortDesc(db.transactions, Date)[k2]
  {
    var sorted := SortDesc(db.transactions, Date);
    var rows := db.transactions;
    assert forall i, j :: 0 <= i < j < |rows| ==> rows[i].id < rows[j].id;
    if sorted[k1] == sorted[k2] {
      RepeatCount(sorted, k1, k2);
      DistinctCount(rows, sorted[k1]);
      assert false;
    }
  }

  /** In a well-formed database and with a positive limit, a ledger row shown
      at some position of some page is shown nowhere else: equal rows at
      (p1, m1) and (p2, m2) mean the same page and position. */
  lemma NoRowOnTwoPages(db: Db, limit: int, p1: int, m1: int, p2: int, m2: int)
    requires WellFormed(db) && 0 < limit && 1 <= p1 && 1 <= p2 && 0 <= m1 && 0 <= m2
    requires m1 < |History(db, Some(p1), Some(limit)).data|
    requires m2 < |History(db, Some(p2), Some(limit)).data|
    ensures History(db, Some(p1), Some(limit)).data[m1].txn == History(db, Some(p2), Some(limit)).data[m2].txn
            ==> p1 == p2 && m1 == m2
  {
    var k1 := OnPage(db, limit, p1, m1);
    var k2 := OnPage(db, limit, p2, m2);
    if History(db, Some(p1), Some(limit)).data[m1].txn == History(db, Some(p2), Some(limit)).data[m2].txn {
      if k1 < k2 {
        SortedRowsDistinct(db, k1, k2);
      } else if k2 < k1 {
        SortedRowsDistinct(db, k2, k1);
      }
      PositionsAreDistinct(limit, p1, m1, p2, m2);
    }
  }

  /** A position that exists on a page is inside the limit and shows row Start(page, limit) + m. */
  lemma OnPage(db: Db, limit: int, page: int, m: int) returns (k: int)
    requires 0 < limit && 1 <= page && 0 <= m < |History(db, Some(page), Some(limit)).data|
    ensures m < limit && k == Start(page, limit) + m < |db.transactions|
    ensures History(db, Some(page), Some(limit)).data[m].txn == SortDesc(db.transactions, Date)[k]
  {
    var h := History(db, Some(page), Some(limit));
    assert |Txns(h.data)| == |h.data|;
    k := Start(page, limit) + m;
    RowOnPage(db, limit, k, page, m);
  }

  /** With a positive limit, pages 1 .. totalPages are non-empty and every later page is empty. */
  lemma PagesBeyondTotalAreEmpty(db: Db, limit: int, page: int)
    requires 0 < limit && 1 <= page
    ensures var h := History(db, Some(page), Some(limit));
            |h.data| > 0 <==> page <= h.pagination.totalPages
  {
    MulMono(0, page - 1, limit);
    assert Start(page, limit) == (page - 1) * limit;
    PageStartsInside(|db.transactions|, limit, page);
  }

  /** 25 ledger rows with `limit=10`: page 3 holds the last 5 rows and there are 3 pages. */
  lemma TwentyFiveRowsThirdPage(db: Db)
    requires |db.transactions| == 25
    ensures var h := History(db, Some(3), Some(10));
            && |h.data| == 5
            && h.pagination.totalPages == 3
            && h.pagination.totalRecords == 25
  {
    assert Start(3, 10) == 20;
    var q := CeilDiv(25, 10);
    if q < 3 {
      MulMono(q, 2, 10);
    } else if q > 3 {
      MulMono(3, q - 1, 10);
    }
  }

  /** No query parameters on an empty ledger: page 1 of 10, no rows, no pages. */
  lemma EmptyLedgerHistory(db: Db)
    requires |db.transactions| == 0
    ensures var h := History(db, None, None);
            && h.data == []
            && h.pagination == Pagination(1, 10, 0, 0)
  {
    var q := CeilDiv(0, 10);
    if q < 0 {
      MulMono(q, -1, 10);
    } else if q > 0 {
      MulMono(1, q, 10);
    }
  }
}
