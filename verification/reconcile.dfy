/** Invariants of the write operations over any sequence of requests:
    balances reconcile with the ledger, ids stay unique and increasing,
    settling is one-way, and the reported total follows the ledger. */
module Reconcile {
  import opened Wrappers
  import opened Schema
  import opened Ledger
  import opened Queries

  /** Net signed effect of the ledger on source `id`: the rows naming it,
      'EXPENSE' rows negative and all others positive. */
  function Net(txns: seq<Txn>, id: Id): Amount {
    if |txns| == 0 then 0.0
    else
      var last := txns[|txns| - 1];
      Net(txns[..|txns| - 1], id) + (if last.sourceId == Some(id) then Signed(last) else 0.0)
  }

  lemma NetAppend(txns: seq<Txn>, row: Txn, id: Id)
    ensures Net(txns + [row], id) == Net(txns, id) + (if row.sourceId == Some(id) then Signed(row) else 0.0)
  {
    assert (txns + [row])[..|txns|] == txns;
  }

  /** `db` has the same source rows as `base` (same ids, names and types),
      and each balance has moved by exactly the net of the ledger rows that
      were added for that source since `base`. */
  ghost predicate Reconciles(base: Db, db: Db) {
    && |db.sources| == |base.sources|
    && forall i :: 0 <= i < |base.sources| ==>
         && db.sources[i].(balance := base.sources[i].balance) == base.sources[i]
         && db.sources[i].balance - Net(db.transactions, db.sources[i].id)
            == base.sources[i].balance - Net(base.transactions, base.sources[i].id)
  }

  /** Appending one row and moving the named source by that row's signed amount keeps the books balanced. */
  lemma LoggedAndCreditedReconciles(base: Db, db: Db, next: Db, row: Txn)
    requires Reconciles(base, db)
    requires Logged(db, next, row)
    requires Credited(db.sources, next.sources, row.sourceId, Signed(row))
    ensures Reconciles(base, next)
  {
    forall i | 0 <= i < |base.sources|
      ensures next.sources[i].balance - Net(next.transactions, next.sources[i].id)
              == base.sources[i].balance - Net(base.transactions, base.sources[i].id)
    {
      NetAppend(db.transactions, row, db.sources[i].id);
    }
  }

  /** One request, successful or rolled back, keeps the books balanced. */
  lemma StepReconciles(base: Db, db: Db, fk: bool, now: Timestamp, call: Call)
    requires Reconciles(base, db)
    ensures Reconciles(base, Step(db, fk, now, call))
  {
    var r := Run(db, fk, now, call);
    if r.Ok? {
      var row := r.value.transactions[|db.transactions|];
      match call
      case Record(amount, kind, category, note, sourceId) =>
        LoggedAndCreditedReconciles(base, db, r.value, row);
      case Lend(personName, amount, reason, sourceId) =>
        LoggedAndCreditedReconciles(base, db, r.value, row);
      case Settle(id, sourceId) =>
        assert Income != Expense;
        LoggedAndCreditedReconciles(base, db, r.value, row);
    }
  }

  /** Reconciliation: after any sequence of requests, each source's balance
      is its balance at `base` plus the net of the ledger rows added since. */
  lemma {:induction false} ReplayReconciles(base: Db, db: Db, fk: bool, calls: seq<Timed>)
    requires Reconciles(base, db)
    ensures Reconciles(base, Replay(db, fk, calls))
    decreases |calls|
  {
    if |calls| > 0 {
      StepReconciles(base, db, fk, calls[0].now, calls[0].call);
      ReplayReconciles(base, Step(db, fk, calls[0].now, calls[0].call), fk, calls[1..]);
    }
  }

  /** From the seeded start-up database, every balance equals its seed
      balance plus the signed sum of the ledger rows naming that source. */
  lemma SeededLedgerReconciles(fk: bool, calls: seq<Timed>)
    ensures var seed := SeedIfEmpty(Empty());
            var db := Replay(seed, fk, calls);
            && |db.sources| == 3
            && forall i :: 0 <= i < 3 ==>
                 && db.sources[i].id == seed.sources[i].id
                 && db.sources[i].name == seed.sources[i].name
                 && db.sources[i].kind == seed.sources[i].kind
                 && db.sources[i].balance == seed.sources[i].balance + Net(db.transactions, db.sources[i].id)
  {
    var seed := SeedIfEmpty(Empty());
    ReplayReconciles(seed, seed, fk, calls);
  }

  /** Existing rows keep their ids; at most one row is added, under the counter's next id. */
  ghost predicate KeepsIds<T>(before: seq<T>, after: seq<T>, id: T -> Id, next: Id, next': Id) {
    && (forall i :: 0 <= i < |before| && i < |after| ==> id(after[i]) == id(before[i]))
    && ((|after| == |before| && next' == next)
        || (|after| == |before| + 1 && id(after[|before|]) == next && next' == next + 1))
  }

  lemma KeepsIdsValid<T>(before: seq<T>, after: seq<T>, id: T -> Id, next: Id, next': Id)
    requires IdsValid(before, id, next)
    requires KeepsIds(before, after, id, next, next')
    ensures IdsValid(after, id, next')
  {
  }

  /** Id uniqueness and order survive every request. */
  lemma StepWellFormed(db: Db, fk: bool, now: Timestamp, call: Call)
    requires WellFormed(db)
    ensures WellFormed(Step(db, fk, now, call))
  {
    var r := Run(db, fk, now, call);
    if r.Ok? {
      var next := r.value;
      KeepsIdsValid(db.sources, next.sources, (s: Source) => s.id, db.nextSourceId, next.nextSourceId);
      KeepsIdsValid(db.transactions, next.transactions, (t: Txn) => t.id, db.nextTxnId, next.nextTxnId);
      assert KeepsIds(db.receivables, next.receivables, (x: Receivable) => x.id, db.nextReceivableId, next.nextReceivableId);
      KeepsIdsValid(db.receivables, next.receivables, (x: Receivable) => x.id, db.nextReceivableId, next.nextReceivableId);
    }
  }

  lemma {:induction false} ReplayWellFormed(db: Db, fk: bool, calls: seq<Timed>)
    requires WellFormed(db)
    ensures WellFormed(Replay(db, fk, calls))
    decreases |calls|
  {
    if |calls| > 0 {
      StepWellFormed(db, fk, calls[0].now, calls[0].call);
      ReplayWellFormed(Step(db, fk, calls[0].now, calls[0].call), fk, calls[1..]);
    }
  }

  /** Receivables are only appended or marked settled: every existing row
      keeps its id, person, amount, reason and date, and a settled row stays settled. */
  ghost predicate SettledOnlyGrows(before: Db, after: Db) {
    && |before.receivables| <= |after.receivables|
    && forall i :: 0 <= i < |before.receivables| ==>
         && after.receivables[i].(settled := before.receivables[i].settled) == before.receivables[i]
         && (before.receivables[i].settled ==> after.receivables[i].settled)
  }

  lemma StepSettledOnlyGrows(db: Db, fk: bool, now: Timestamp, call: Call)
    ensures SettledOnlyGrows(db, Step(db, fk, now, call))
  {
  }

  /** Settled is a one-way transition across any sequence of requests. */
  lemma {:induction false} ReplaySettledOnlyGrows(db: Db, fk: bool, calls: seq<Timed>)
    ensures SettledOnlyGrows(db, Replay(db, fk, calls))
    decreases |calls|
  {
    if |calls| > 0 {
      var next := Step(db, fk, calls[0].now, calls[0].call);
      StepSettledOnlyGrows(db, fk, calls[0].now, calls[0].call);
      ReplaySettledOnlyGrows(next, fk, calls[1..]);
    }
  }

  /** With unique ids, crediting `sid` moves the sum of balances by `delta`
      if some source has that id, and leaves it alone otherwise. */
  lemma {:induction false} SumCredited(rows: seq<Source>, after: seq<Source>, sid: Option<int>, delta: Amount)
    requires forall i, j :: 0 <= i < j < |rows| ==> rows[i].id < rows[j].id
    requires Credited(rows, after, sid, delta)
    ensures Sum(after) == Sum(rows) + (if FindSource(rows, sid).Some? then delta else 0.0)
    decreases |rows|
  {
    if |rows| > 0 {
      SumCredited(rows[1..], after[1..], sid, delta);
      if IsSource(rows[0], sid) {
        assert forall i :: 1 <= i < |rows| ==> !IsSource(rows[i], sid);
        assert FindSource(rows[1..], sid).None?;
      }
    }
  }

  /** The total of GET /api/sources moves by the signed amount of the
      appended ledger row when that row names an existing source, and not at all otherwise. */
  lemma TotalFollowsLedger(db: Db, fk: bool, now: Timestamp, call: Call)
    requires WellFormed(db)
    requires Admissible(db, fk, call)
    ensures var next := Step(db, fk, now, call);
            var row := next.transactions[|db.transactions|];
            ListSources(next).total
              == ListSources(db).total + (if FindSource(db.sources, row.sourceId).Some? then Signed(row) else 0.0)
  {
    var next := Step(db, fk, now, call);
    var row := next.transactions[|db.transactions|];
    assert Credited(db.sources, next.sources, row.sourceId, Signed(row)) by {
      if call.Settle? {
        assert Income != Expense;
      }
    }
    SumCredited(db.sources, next.sources, row.sourceId, Signed(row));
  }

  /** After marking `id` settled, looking `id` up finds the same row, now settled. */
  lemma {:induction false} FindAfterMarkSettled(rows: seq<Receivable>, id: Option<int>)
    ensures FindReceivable(MarkSettled(rows, id), id)
            == if FindReceivable(rows, id).Some? then Some(FindReceivable(rows, id).value.(settled := true)) else None
    decreases |rows|
  {
    if |rows| > 0 {
      FindAfterMarkSettled(rows[1..], id);
      assert MarkSettled(rows, id)[1..] == MarkSettled(rows[1..], id);
    }
  }

  /** Settling does not check `is_settled`: settling the same receivable
      twice into an existing source credits that source twice and logs two
      'Debt Repayment' rows. */
  lemma SettleTwiceCreditsTwice(db: Db, fk: bool, now1: Timestamp, now2: Timestamp, id: int, i: int)
    requires FindReceivable(db.receivables, Some(id)).Some?
    requires 0 <= i < |db.sources|
    ensures var call := Settle(Some(id), Some(db.sources[i].id));
            var once := Step(db, fk, now1, call);
            var twice := Step(once, fk, now2, call);
            var debt := FindReceivable(db.receivables, Some(id)).value;
            && once.sources[i].balance == db.sources[i].balance + debt.amount
            && twice.sources[i].balance == db.sources[i].balance + debt.amount + debt.amount
            && |twice.transactions| == |db.transactions| + 2
            && twice.transactions[|db.transactions|].amount == debt.amount
            && twice.transactions[|db.transactions| + 1].amount == debt.amount
  {
    var sid := Some(db.sources[i].id);
    var call := Settle(Some(id), sid);
    var debt := FindReceivable(db.receivables, Some(id)).value;
    assert Admissible(db, fk, call) by {
      assert IsSource(db.sources[i], sid);
    }
    var once := Step(db, fk, now1, call);
    FindAfterMarkSettled(db.receivables, Some(id));
    assert FindReceivable(once.receivables, Some(id)) == Some(debt.(settled := true));
    assert Admissible(once, fk, call) by {
      assert IsSource(once.sources[i], sid);
    }
  }

  /** A successful settle removes the receivable from the open list. */
  lemma SettleClosesReceivable(db: Db, fk: bool, now: Timestamp, id: Option<int>, sourceId: Option<int>)
    requires Admissible(db, fk, Settle(id, sourceId))
    ensures forall x :: x in OpenReceivables(Step(db, fk, now, Settle(id, sourceId))) ==> !IsReceivable(x, id)
  {
    var next := Step(db, fk, now, Settle(id, sourceId));
    assert SettledIn(db.receivables, next.receivables, id);
    forall x | x in next.receivables && IsReceivable(x, id)
      ensures x.settled
    {
      var k :| 0 <= k < |next.receivables| && next.receivables[k] == x;
    }
  }

  /** A successful lend puts the new, unsettled receivable on the open list. */
  lemma LendOpensReceivable(db: Db, fk: bool, now: Timestamp, personName: Option<string>, amount: Option<Amount>,
                            reason: Option<string>, sourceId: Option<int>)
    requires Admissible(db, fk, Lend(personName, amount, reason, sourceId))
    ensures Receivable(db.nextReceivableId, personName.value, amount.value, reason.value, false, now)
            in OpenReceivables(Step(db, fk, now, Lend(personName, amount, reason, sourceId)))
  {
    var next := Step(db, fk, now, Lend(personName, amount, reason, sourceId));
    assert next.receivables[|db.receivables|]
           == Receivable(db.nextReceivableId, personName.value, amount.value, reason.value, false, now);
  }
}
