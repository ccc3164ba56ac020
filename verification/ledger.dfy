/** The three balance-changing operations of server/index.js. Each runs its
    statements in order inside one `db.transaction(...)`: a statement that
    fails makes the whole unit fail, and `Commit` then keeps the database as
    it was before the call. */
module Ledger {
  import opened Wrappers
  import opened Schema

  const Expense := "EXPENSE"
  const Income := "INCOME"
  const Lending := "Lending"
  const DebtRepayment := "Debt Repayment"

  /** What a ledger row does to its source's balance: a row of type
      'EXPENSE' debits it, a row of ANY other type credits it. */
  function Signed(t: Txn): Amount {
    if t.kind == Expense then -t.amount else t.amount
  }

  /** `after` has `row` appended to the ledger under the next transaction id. */
  ghost predicate Logged(before: Db, after: Db, row: Txn) {
    && row.id == before.nextTxnId
    && after.transactions == before.transactions + [row]
    && after.nextTxnId == before.nextTxnId + 1
    && after.nextSourceId == before.nextSourceId
  }

  /** With foreign keys enforced, a non-NULL `source_id` must name a source. */
  predicate SourceRefOk(db: Db, fk: bool, sourceId: Option<int>) {
    fk && sourceId.Some? ==> FindSource(db.sources, sourceId).Some?
  }

  lemma AdjustKeepsSources(rows: seq<Source>, sid: Option<int>, delta: Amount, ref: Option<int>)
    ensures FindSource(Adjust(rows, sid, delta), ref).Some? <==> FindSource(rows, ref).Some?
  {
    var r := Adjust(rows, sid, delta);
    if FindSource(rows, ref).Some? {
      var i :| 0 <= i < |rows| && IsSource(rows[i], ref);
      assert IsSource(r[i], ref);
    }
    if FindSource(r, ref).Some? {
      var i :| 0 <= i < |r| && IsSource(r[i], ref);
      assert IsSource(rows[i], ref);
    }
  }

  /** POST /api/transactions (processTransaction): insert the ledger row, then
      debit the source if the type is 'EXPENSE' and credit it otherwise. */
  function RecordTransaction(db: Db, fk: bool, now: Timestamp, amount: Option<Amount>, kind: Option<string>,
                             category: Option<string>, note: Option<string>, sourceId: Option<int>): (r: Result<Db, DbError>)
    ensures r.Ok? <==> amount.Some? && kind.Some? && category.Some? && SourceRefOk(db, fk, sourceId)
    ensures r.Ok? ==>
              var row := Txn(db.nextTxnId, amount.value, kind.value, category.value, note, now, sourceId);
              && Logged(db, r.value, row)
              && Credited(db.sources, r.value.sources, sourceId, Signed(row))
              && r.value.receivables == db.receivables
              && r.value.nextReceivableId == db.nextReceivableId
  {
    var d1 :- InsertTxn(db, fk, now, amount, kind, category, note, sourceId);
    if kind.value == Expense then Ok(d1.(sources := Adjust(d1.sources, sourceId, -amount.value)))
    else Ok(d1.(sources := Adjust(d1.sources, sourceId, amount.value)))
  }

  /** POST /api/receivables (lendMoney): open a receivable, debit the source
      by the lent amount, and log it as an 'EXPENSE' / 'Lending' row. */
  function LendMoney(db: Db, fk: bool, now: Timestamp, personName: Option<string>, amount: Option<Amount>,
                     reason: Option<string>, sourceId: Option<int>): (r: Result<Db, DbError>)
    ensures r.Ok? <==> personName.Some? && amount.Some? && reason.Some? && SourceRefOk(db, fk, sourceId)
    ensures r.Ok? ==>
              && r.value.receivables == db.receivables
                   + [Receivable(db.nextReceivableId, personName.value, amount.value, reason.value, false, now)]
              && r.value.nextReceivableId == db.nextReceivableId + 1
              && Credited(db.sources, r.value.sources, sourceId, -amount.value)
              && Logged(db, r.value,
                        Txn(db.nextTxnId, amount.value, Expense, Lending, Some("Lent to " + personName.value), now, sourceId))
  {
    var d1 :- InsertReceivable(db, now, personName, amount, reason);
    var d2 := d1.(sources := Adjust(d1.sources, sourceId, -amount.value));
    AdjustKeepsSources(d1.sources, sourceId, -amount.value, sourceId);
    var d3 :- InsertTxn(d2, fk, now, amount, Some(Expense), Some(Lending), Some("Lent to " + personName.value), sourceId);
    Ok(d3)
  }

  /** POST /api/receivables/settle (settleDebt): read the receivable (a
      missing row makes `debt.amount` throw), mark it settled, credit the
      source by the stored amount, and log an 'INCOME' / 'Debt Repayment'
      row. The `is_settled` flag is not consulted first. */
  function SettleDebt(db: Db, fk: bool, now: Timestamp, id: Option<int>, sourceId: Option<int>): (r: Result<Db, DbError>)
    ensures r.Ok? <==> FindReceivable(db.receivables, id).Some? && SourceRefOk(db, fk, sourceId)
    ensures r.Err? && FindReceivable(db.receivables, id).None? ==> r.error == NoSuchReceivable
    ensures r.Err? && r.error == NoSuchReceivable ==> FindReceivable(db.receivables, id).None?
    ensures r.Ok? ==>
              var debt := FindReceivable(db.receivables, id).value;
              && SettledIn(db.receivables, r.value.receivables, id)
              && r.value.nextReceivableId == db.nextReceivableId
              && Credited(db.sources, r.value.sources, sourceId, debt.amount)
              && Logged(db, r.value,
                        Txn(db.nextTxnId, debt.amount, Income, DebtRepayment, Some("Settled: " + debt.personName), now, sourceId))
  {
    match FindReceivable(db.receivables, id)
    case None => Err(NoSuchReceivable)
    case Some(debt) =>
      var d1 := db.(receivables := MarkSettled(db.receivables, id));
      var d2 := d1.(sources := Adjust(d1.sources, sourceId, debt.amount));
      AdjustKeepsSources(d1.sources, sourceId, debt.amount, sourceId);
      InsertTxn(d2, fk, now, Some(debt.amount), Some(Income), Some(DebtRepayment),
                Some("Settled: " + debt.personName), sourceId)
  }

  /** A request to one of the three write endpoints, with its body's fields
      (None where the field is absent or null). */
  datatype Call =
    | Record(amount: Option<Amount>, kind: Option<string>, category: Option<string>,
             note: Option<string>, sourceId: Option<int>)
    | Lend(personName: Option<string>, amount: Option<Amount>, reason: Option<string>, sourceId: Option<int>)
    | Settle(id: Option<int>, sourceId: Option<int>)

  function Run(db: Db, fk: bool, now: Timestamp, call: Call): Result<Db, DbError> {
    match call
    case Record(amount, kind, category, note, sourceId) =>
      RecordTransaction(db, fk, now, amount, kind, category, note, sourceId)
    case Lend(personName, amount, reason, sourceId) =>
      LendMoney(db, fk, now, personName, amount, reason, sourceId)
    case Settle(id, sourceId) =>
      SettleDebt(db, fk, now, id, sourceId)
  }

  /** When a call can succeed, stated from the request and the current rows
      alone: every NOT NULL column gets a value, a settled id names a
      receivable, and the foreign key holds when it is enforced. */
  predicate Admissible(db: Db, fk: bool, call: Call) {
    && SourceRefOk(db, fk, call.sourceId)
    && match call
       case Record(amount, kind, category, _, _) => amount.Some? && kind.Some? && category.Some?
       case Lend(personName, amount, reason, _) => personName.Some? && amount.Some? && reason.Some?
       case Settle(id, _) => FindReceivable(db.receivables, id).Some?
  }

  /** The unit of work: all of the call's effects, or none of them. */
  function Commit(db: Db, r: Result<Db, DbError>): Db {
    match r
    case Ok(d) => d
    case Err(_) => db
  }

  /** One request against the database, rolled back when it fails. */
  function Step(db: Db, fk: bool, now: Timestamp, call: Call): (r: Db)
    ensures !Admissible(db, fk, call) ==> r == db
    ensures Admissible(db, fk, call) ==>
              && |r.transactions| == |db.transactions| + 1
              && r.transactions[..|db.transactions|] == db.transactions
  {
    var r := Commit(db, Run(db, fk, now, call));
    assert Admissible(db, fk, call) ==> r.transactions[..|db.transactions|] == db.transactions;
    r
  }

  /** A timed request: `now` is the clock reading its inserts record. */
  datatype Timed = Timed(call: Call, now: Timestamp)

  /** A sequence of requests, served one after another. */
  function Replay(db: Db, fk: bool, calls: seq<Timed>): Db
    decreases |calls|
  {
    if |calls| == 0 then db
    else Replay(Step(db, fk, calls[0].now, calls[0].call), fk, calls[1..])
  }
}
