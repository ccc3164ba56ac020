/** A concrete run against the seeded database: spend from the wallet,
    lend part of the rest, and have the debt repaid. */
module Scenarios {
  import opened Wrappers
  import opened Schema
  import opened Ledger
  import opened Queries

  /** Seeding the empty database yields the three accounts with ids 1, 2 and
      3 and a total of 2043.09; seeding again changes nothing. */
  lemma SeedOfEmptyDatabase()
    ensures var seed := SeedIfEmpty(Empty());
            && seed.sources == [Source(1, CashInWallet, "CASH", 800.0),
                                Source(2, BoiBank, "BANK", 168.73),
                                Source(3, IppbBank, "BANK", 1074.36)]
            && seed.transactions == [] && seed.receivables == []
            && ListSources(seed).total == 2043.09
            && SeedIfEmpty(seed) == seed
  {
    var seed := SeedIfEmpty(Empty());
    assert seed.sources[1..][1..][1..] == [];
  }

  const Wallet: Option<int> := Some(1)

  /** Spending 100 from the wallet of 800 leaves 700 and logs one 'EXPENSE' row of 100. */
  lemma SpendFromWallet(db: Db, fk: bool)
    requires db == SeedIfEmpty(Empty())
    ensures var spent := Step(db, fk, 1, Record(Some(100.0), Some(Expense), Some("Food"), None, Wallet));
            && spent.sources[0] == Source(1, CashInWallet, "CASH", 700.0)
            && spent.sources[1..] == db.sources[1..]
            && spent.nextTxnId == 2 && spent.nextReceivableId == 1
            && spent.transactions == [Txn(1, 100.0, Expense, "Food", None, 1, Wallet)]
            && spent.receivables == []
  {
    SeedOfEmptyDatabase();
    SpendFromFreshWallet(db, fk);
  }

  /** The same spend, from any database whose wallet holds 800 and whose ledger and receivables are empty. */
  lemma SpendFromFreshWallet(db: Db, fk: bool)
    requires |db.sources| == 3 && db.sources[0] == Source(1, CashInWallet, "CASH", 800.0)
    requires db.sources[1].id == 2 && db.sources[2].id == 3
    requires db.transactions == [] && db.receivables == [] && db.nextTxnId == 1 && db.nextReceivableId == 1
    ensures var spent := Step(db, fk, 1, Record(Some(100.0), Some(Expense), Some("Food"), None, Wallet));
            && spent.sources[0] == Source(1, CashInWallet, "CASH", 700.0)
            && spent.sources[1..] == db.sources[1..]
            && spent.nextTxnId == 2 && spent.nextReceivableId == 1
            && spent.transactions == [Txn(1, 100.0, Expense, "Food", None, 1, Wallet)]
            && spent.receivables == []
  {
    assert IsSource(db.sources[0], Wallet);
    var spent := Step(db, fk, 1, Record(Some(100.0), Some(Expense), Some("Food"), None, Wallet));
    assert spent.sources[1..] == db.sources[1..];
  }

  /** Lending 50 to Sam from a wallet of 700 leaves 650, opens one unsettled
      receivable of 50 and logs one 'EXPENSE' / 'Lending' row of 50. */
  lemma LendFromWallet(db: Db, fk: bool)
    requires |db.sources| == 3 && db.sources[0] == Source(1, CashInWallet, "CASH", 700.0)
    requires db.sources[1].id == 2 && db.sources[2].id == 3
    requires db.receivables == [] && db.nextReceivableId == 1 && db.nextTxnId == 2
    ensures var lent := Step(db, fk, 2, Lend(Some("Sam"), Some(50.0), Some("Lunch"), Wallet));
            && lent.sources[0] == Source(1, CashInWallet, "CASH", 650.0)
            && lent.sources[1..] == db.sources[1..]
            && lent.nextTxnId == 3
            && lent.receivables == [Receivable(1, "Sam", 50.0, "Lunch", false, 2)]
            && lent.transactions == db.transactions + [Txn(2, 50.0, Expense, Lending, Some("Lent to Sam"), 2, Wallet)]
            && OpenReceivables(lent) == lent.receivables
  {
    assert IsSource(db.sources[0], Wallet);
    assert "Lent to " + "Sam" == "Lent to Sam";
    var lent := Step(db, fk, 2, Lend(Some("Sam"), Some(50.0), Some("Lunch"), Wallet));
    assert lent.sources[1..] == db.sources[1..];
  }

  /** Settling that receivable into the wallet of 650 brings it back to 700,
      marks it settled, and logs one 'INCOME' / 'Debt Repayment' row of 50. */
  lemma SettleToWallet(db: Db, fk: bool)
    requires |db.sources| == 3 && db.sources[0] == Source(1, CashInWallet, "CASH", 650.0)
    requires db.sources[1].id == 2 && db.sources[2].id == 3
    requires db.receivables == [Receivable(1, "Sam", 50.0, "Lunch", false, 2)] && db.nextTxnId == 3
    ensures var settled := Step(db, fk, 3, Settle(Some(1), Wallet));
            && settled.sources[0].balance == 700.0
            && settled.sources[1..] == db.sources[1..]
            && settled.receivables == [Receivable(1, "Sam", 50.0, "Lunch", true, 2)]
            && settled.transactions
               == db.transactions + [Txn(3, 50.0, Income, DebtRepayment, Some("Settled: Sam"), 3, Wallet)]
            && OpenReceivables(settled) == []
  {
    assert IsSource(db.sources[0], Wallet);
    assert IsReceivable(db.receivables[0], Some(1));
    assert "Settled: " + "Sam" == "Settled: Sam";
    var settled := Step(db, fk, 3, Settle(Some(1), Wallet));
    assert settled.sources[1..] == db.sources[1..];
    assert !(settled.receivables[0] in OpenReceivables(settled));
  }
}
