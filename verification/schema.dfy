/** The three tables of the finance database (server/db.js): their rows,
    the column defaults and NOT NULL / foreign-key constraints applied on
    INSERT, the row-wise UPDATEs the ledger issues, and seeding. */
module Schema {
  import opened Wrappers

  /** An AUTOINCREMENT primary key; SQLite hands out 1, 2, 3, ... */
  type Id = nat

  /** An abstract CURRENT_TIMESTAMP: larger means later. */
  type Timestamp = nat

  /** A REAL amount or balance, without floating-point rounding. */
  type Amount = real

  /** A row of `sources`. `kind` is the `type` column: meant to be 'CASH' or
      'BANK', but only NOT NULL is enforced, so any string is stored. */
  datatype Source = Source(id: Id, name: string, kind: string, balance: Amount)

  /** A row of `transactions`. `kind` is the `type` column ('EXPENSE' or
      'INCOME' by intent, any string in fact); `note` and `sourceId` are
      nullable, and `sourceId` need not name an existing source. */
  datatype Txn = Txn(
    id: Id,
    amount: Amount,
    kind: string,
    category: string,
    note: Option<string>,
    date: Timestamp,
    sourceId: Option<int>)

  /** A row of `receivables`; `settled` is the `is_settled` flag (0 or 1). */
  datatype Receivable = Receivable(
    id: Id,
    personName: string,
    amount: Amount,
    reason: string,
    settled: bool,
    createdAt: Timestamp)

  /** The whole database: each table in rowid order, with the next id its
      AUTOINCREMENT counter will hand out. */
  datatype Db = Db(
    sources: seq<Source>,
    nextSourceId: Id,
    transactions: seq<Txn>,
    nextTxnId: Id,
    receivables: seq<Receivable>,
    nextReceivableId: Id)

  /** Why a statement, and with it the enclosing unit of work, fails. */
  datatype DbError =
    | NotNull(column: string)      // a NOT NULL column was given NULL
    | ForeignKey(sourceId: int)    // transactions.source_id names no source (when enforced)
    | NoSuchReceivable             // settling reads a receivable that is not there

  /** The freshly created, empty database. */
  function Empty(): Db {
    Db([], 1, [], 1, [], 1)
  }

  /** Ids are positive, below the table's counter, and strictly increasing in rowid order. */
  ghost predicate IdsValid<T>(rows: seq<T>, id: T -> Id, next: Id) {
    && 0 < next
    && (forall i :: 0 <= i < |rows| ==> 0 < id(rows[i]) < next)
    && (forall i, j :: 0 <= i < j < |rows| ==> id(rows[i]) < id(rows[j]))
  }

  ghost predicate WellFormed(db: Db) {
    && IdsValid(db.sources, (s: Source) => s.id, db.nextSourceId)
    && IdsValid(db.transactions, (t: Txn) => t.id, db.nextTxnId)
    && IdsValid(db.receivables, (r: Receivable) => r.id, db.nextReceivableId)
  }

  /** `WHERE id = ?` against a possibly-NULL parameter: NULL matches no row. */
  predicate IsSource(s: Source, sid: Option<int>) {
    sid == Some(s.id)
  }

  predicate IsReceivable(r: Receivable, id: Option<int>) {
    id == Some(r.id)
  }

  /** The source row an id refers to, if any: the lookup behind the history's
      `LEFT JOIN sources s ON t.source_id = s.id` and behind the foreign-key
      check on `transactions.source_id`. */
  function FindSource(rows: seq<Source>, sid: Option<int>): (r: Option<Source>)
    ensures r.Some? <==> exists i :: 0 <= i < |rows| && IsSource(rows[i], sid)
    ensures r.Some? ==> r.value in rows && IsSource(r.value, sid)
  {
    if |rows| == 0 then None
    else if IsSource(rows[0], sid) then Some(rows[0])
    else
      var r := FindSource(rows[1..], sid);
      assert forall i :: 1 <= i < |rows| ==> rows[i] == rows[1..][i - 1];
      r
  }

  /** `SELECT * FROM receivables WHERE id = ?`: the first matching row, if any. */
  function FindReceivable(rows: seq<Receivable>, id: Option<int>): (r: Option<Receivable>)
    ensures r.Some? <==> exists i :: 0 <= i < |rows| && IsReceivable(rows[i], id)
    ensures r.Some? ==> r.value in rows && IsReceivable(r.value, id)
  {
    if |rows| == 0 then None
    else if IsReceivable(rows[0], id) then Some(rows[0])
    else
      var r := FindReceivable(rows[1..], id);
      assert forall i :: 1 <= i < |rows| ==> rows[i] == rows[1..][i - 1];
      r
  }

  /** `after` is `before` with `delta` added to the balance of every row whose id is `sid`. */
  ghost predicate Credited(before: seq<Source>, after: seq<Source>, sid: Option<int>, delta: Amount) {
    && |after| == |before|
    && forall i :: 0 <= i < |before| ==>
         after[i] == if IsSource(before[i], sid)
                     then before[i].(balance := before[i].balance + delta)
                     else before[i]
  }

  /** `UPDATE sources SET balance = balance + delta WHERE id = sid`. */
  function Adjust(rows: seq<Source>, sid: Option<int>, delta: Amount): (r: seq<Source>)
    ensures Credited(rows, r, sid, delta)
  {
    if |rows| == 0 then []
    else
      var head := if IsSource(rows[0], sid) then rows[0].(balance := rows[0].balance + delta) else rows[0];
      [head] + Adjust(rows[1..], sid, delta)
  }

  /** Every receivable whose id is `id` is marked settled; nothing else changes. */
  ghost predicate SettledIn(before: seq<Receivable>, after: seq<Receivable>, id: Option<int>) {
    && |after| == |before|
    && forall i :: 0 <= i < |before| ==>
         after[i] == if IsReceivable(before[i], id) then before[i].(settled := true) else before[i]
  }

  /** `UPDATE receivables SET is_settled = 1 WHERE id = ?`. */
  function MarkSettled(rows: seq<Receivable>, id: Option<int>): (r: seq<Receivable>)
    ensures SettledIn(rows, r, id)
  {
    if |rows| == 0 then []
    else
      var head := if IsReceivable(rows[0], id) then rows[0].(settled := true) else rows[0];
      [head] + MarkSettled(rows[1..], id)
  }

  /** `INSERT INTO sources (name, type[, balance])`: `balance` is None when
      the column is left out of the statement, so its DEFAULT 0 applies. */
  function InsertSource(db: Db, name: Option<string>, kind: Option<string>, balance: Option<Amount>): (r: Result<Db, DbError>)
    ensures r.Ok? <==> name.Some? && kind.Some?
    ensures r.Ok? ==>
              && |r.value.sources| == |db.sources| + 1
              && r.value.sources[..|db.sources|] == db.sources
              && r.value.sources[|db.sources|] == Source(db.nextSourceId, name.value, kind.value,
                                                         if balance.Some? then balance.value else 0.0)
              && r.value.nextSourceId == db.nextSourceId + 1
              && r.value.transactions == db.transactions && r.value.nextTxnId == db.nextTxnId
              && r.value.receivables == db.receivables && r.value.nextReceivableId == db.nextReceivableId
    ensures r.Ok? && WellFormed(db) ==> WellFormed(r.value)
  {
    if name.None? then Err(NotNull("sources.name"))
    else if kind.None? then Err(NotNull("sources.type"))
    else
      var b := match balance case Some(v) => v case None => 0.0;
      var d := db.(sources := db.sources + [Source(db.nextSourceId, name.value, kind.value, b)],
                   nextSourceId := db.nextSourceId + 1);
      assert d.sources[..|db.sources|] == db.sources;
      Ok(d)
  }

  /** `INSERT INTO transactions (amount, type, category, note, source_id)`;
      `date` takes its default, the current time `now`. With foreign keys
      enforced (`fk`), a non-NULL `source_id` must name a source. */
  function InsertTxn(db: Db, fk: bool, now: Timestamp, amount: Option<Amount>, kind: Option<string>,
                     category: Option<string>, note: Option<string>, sourceId: Option<int>): (r: Result<Db, DbError>)
    ensures r.Ok? <==>
              && amount.Some? && kind.Some? && category.Some?
              && (fk && sourceId.Some? ==> FindSource(db.sources, sourceId).Some?)
    ensures r.Ok? ==>
              && r.value.transactions == db.transactions
                   + [Txn(db.nextTxnId, amount.value, kind.value, category.value, note, now, sourceId)]
              && r.value.nextTxnId == db.nextTxnId + 1
              && r.value.sources == db.sources && r.value.nextSourceId == db.nextSourceId
              && r.value.receivables == db.receivables && r.value.nextReceivableId == db.nextReceivableId
  {
    if amount.None? then Err(NotNull("transactions.amount"))
    else if kind.None? then Err(NotNull("transactions.type"))
    else if category.None? then Err(NotNull("transactions.category"))
    else if fk && sourceId.Some? && FindSource(db.sources, sourceId).None? then Err(ForeignKey(sourceId.value))
    else
      var row := Txn(db.nextTxnId, amount.value, kind.value, category.value, note, now, sourceId);
      Ok(db.(transactions := db.transactions + [row], nextTxnId := db.nextTxnId + 1))
  }

  /** `INSERT INTO receivables (person_name, amount, reason)`; `is_settled`
      takes its default 0 and `created_at` the current time `now`. */
  function InsertReceivable(db: Db, now: Timestamp, personName: Option<string>, amount: Option<Amount>,
                            reason: Option<string>): (r: Result<Db, DbError>)
    ensures r.Ok? <==> personName.Some? && amount.Some? && reason.Some?
    ensures r.Ok? ==>
              && r.value.receivables == db.receivables
                   + [Receivable(db.nextReceivableId, personName.value, amount.value, reason.value, false, now)]
              && r.value.nextReceivableId == db.nextReceivableId + 1
              && r.value.sources == db.sources && r.value.nextSourceId == db.nextSourceId
              && r.value.transactions == db.transactions && r.value.nextTxnId == db.nextTxnId
  {
    if personName.None? then Err(NotNull("receivables.person_name"))
    else if amount.None? then Err(NotNull("receivables.amount"))
    else if reason.None? then Err(NotNull("receivables.reason"))
    else
      var row := Receivable(db.nextReceivableId, personName.value, amount.value, reason.value, false, now);
      Ok(db.(receivables := db.receivables + [row], nextReceivableId := db.nextReceivableId + 1))
  }

  const CashInWallet := "Cash in Wallet"
  const BoiBank := "BOI Bank"
  const IppbBank := "IPPB Bank"

  /** Start-up seeding: only when `sources` is empty, insert the three initial accounts. */
  function SeedIfEmpty(db: Db): (r: Db)
    ensures |db.sources| > 0 ==> r == db
    ensures |db.sources| == 0 ==>
              && r.sources == [Source(db.nextSourceId, CashInWallet, "CASH", 800.0),
                               Source(db.nextSourceId + 1, BoiBank, "BANK", 168.73),
                               Source(db.nextSourceId + 2, IppbBank, "BANK", 1074.36)]
              && r.nextSourceId == db.nextSourceId + 3
              && r.transactions == db.transactions && r.nextTxnId == db.nextTxnId
              && r.receivables == db.receivables && r.nextReceivableId == db.nextReceivableId
    ensures |r.sources| > 0
    ensures WellFormed(db) ==> WellFormed(r)
  {
    if |db.sources| == 0 then
      var d1 := InsertSource(db, Some(CashInWallet), Some("CASH"), Some(800.0)).value;
      var d2 := InsertSource(d1, Some(BoiBank), Some("BANK"), Some(168.73)).value;
      var d3 := InsertSource(d2, Some(IppbBank), Some("BANK"), Some(1074.36)).value;
      assert d3.sources == [d1.sources[0], d2.sources[1], d3.sources[2]];
      d3
    else db
  }
}
