# Personal finance ledger — Dafny model

This project models the server core of a single-user personal finance
tracker. The tracker keeps three tables:

- **sources**: cash and bank accounts, each with a running balance.
- **transactions**: an append-only ledger of income and expense rows.
- **receivables**: money lent to other people, open until settled.

Three write endpoints change the state. Each runs as one
all-or-nothing SQLite transaction:

- record a transaction;
- lend money;
- settle a debt.

Three read endpoints are views:

- the source list with its total;
- the open receivables;
- the paginated history.

The state is an immutable `Db` value. Every write operation is a pure function
that returns a `Result`. `Ledger.Commit` models the transaction wrapper: on
failure it returns the old state, which is how rollback is modelled. The
read operations are pure functions of the state that return views.

Modules:

- `Wrappers` (`wrappers.dfy`): `Option` and `Result`.
- `Schema` (`schema.dfy`): the tables of `server/db.js`. It covers the row
  types, AUTOINCREMENT counters, column defaults, NOT NULL checks, the
  optional foreign-key check, the row-wise `UPDATE`s and the seed-if-empty
  start-up step.
- `Ordering` (`ordering.dfy`): `ORDER BY ... DESC` as a descending sort
  with a permutation guarantee.
- `Ledger` (`ledger.dfy`): the three write endpoints of `server/index.js`,
  the rollback wrapper, and replaying a sequence of requests.
- `Queries` (`queries.dfy`): the three read endpoints.
- `Paging` (`paging.dfy`): pagination properties of the history endpoint.
- `Reconcile` (`reconcile.dfy`): invariants that hold across any sequence
  of requests. Balances reconcile with the ledger, ids stay increasing,
  settling is one-way, and the total follows the ledger.
- `Scenarios` (`scenarios.dfy`): a concrete run from the seeded database.
  `SpendFromWallet`, `LendFromWallet` and `SettleToWallet` chain: each
  lemma's result meets the next lemma's precondition.

Modelling choices:

- Amounts and balances are Dafny `real`s, without floating-point rounding.
- Timestamps are abstract naturals (`now`). Each write operation receives
  `now` as a parameter, since the source reads the database clock.
- A request field that is absent or null is `None`. A NOT NULL column
  that receives NULL makes the whole operation fail.
- The `type` columns are plain strings, because only NOT NULL is enforced.
  Any transaction type other than `'EXPENSE'` credits the source.
- Whether SQLite enforces the foreign key `transactions.source_id` depends
  on engine configuration that the code does not show. It is the
  parameter `fk`. A NULL source id changes no balance, and the ledger
  row is still appended in both settings. A non-NULL id that names no
  source also changes no balance and appends the row when `fk` is off.
  When `fk` is on, the ledger insert fails and the whole request is
  rolled back.

Behaviours of the code that a reader might not expect, all modelled as
written:

- Settling does not look at `is_settled`. An already-settled receivable
  is not rejected: settling it again succeeds and credits the source a
  second time (`Reconcile.SettleTwiceCreditsTwice`).
- Amounts are not checked to be positive, and transaction types are not
  checked to be `'EXPENSE'` or `'INCOME'`.
- When `page` or `limit` parses to a negative number, the code keeps it
  rather than falling back to the default. SQLite reads a negative OFFSET
  as 0 and a negative LIMIT as "no limit". `Math.ceil` of a negative
  quotient gives a non-positive page count. The model keeps all three
  behaviours.

## Model

| member | source | states |
|---|---|---|
| Schema.InsertSource | server/db.js:8-13 | Inserting a source fails exactly when the name or type is NULL. The new row gets the next id, after every existing row, and only the sources counter advances. With the balance column left out it starts at 0. Id order stays valid. |
| Schema.InsertTxn | server/db.js:15-24 | Inserting a ledger row fails exactly when amount, type or category is NULL, or when the foreign key is enforced and a non-NULL `source_id` names no source. Otherwise it appends one row with the given fields, the next id and `date = now`. NULL `note` and `source_id` are allowed. No other table changes. |
| Schema.InsertReceivable | server/db.js:26-33 | Inserting a receivable fails exactly when person, amount or reason is NULL. Otherwise it appends one row with the next id, `is_settled` = 0 (false) and `created_at = now`. No other table changes. |
| Schema.Adjust | server/index.js:24-28 | The balance update adds `delta` to every source whose id equals the parameter and leaves every other row unchanged. A NULL or unknown id changes nothing. |
| Schema.MarkSettled | server/index.js:89 | Marking settled sets the flag on every receivable with that id and leaves every other row unchanged. |
| Schema.FindReceivable | server/index.js:88 | Looking a receivable up by id succeeds exactly when some row has that id, and returns such a row. NULL finds nothing. |
| Schema.FindSource | server/index.js:43-45 | The id lookup succeeds exactly when some row has that id, and returns such a row. NULL finds nothing. |
| Schema.SeedIfEmpty | server/db.js:39-49 | A non-empty sources table is left alone. An empty one gets exactly 'Cash in Wallet' CASH 800, 'BOI Bank' BANK 168.73 and 'IPPB Bank' BANK 1074.36, under consecutive fresh ids. Afterwards the table is non-empty, so seeding again is a no-op. |
| Scenarios.SeedOfEmptyDatabase | server/db.js:39-49 | Seeding the empty database yields ids 1, 2, 3 and a total of 2043.09. Seeding again changes nothing. |
| Ledger.RecordTransaction | server/index.js:18-30 | Recording succeeds exactly when the row can be inserted. It then appends one row with the given amount, type, category, note and source_id. The named source drops by `amount` when the type is 'EXPENSE' and rises by `amount` for any other type. Receivables and all other sources are untouched. |
| Ledger.LendMoney | server/index.js:69-78 | Lending succeeds exactly when person, amount and reason are given and the source reference is acceptable. It appends one receivable with `is_settled = 0`. It lowers the source by `amount`. It appends one 'EXPENSE' / 'Lending' row, noted "Lent to <person>", for the same amount and source. |
| Ledger.SettleDebt | server/index.js:87-95 | Settling fails with "no such receivable" exactly when no row has the id, and succeeds exactly when one does and the source reference is acceptable. Otherwise it marks that receivable settled and leaves the others untouched. It raises the source by the debt's stored amount and appends one 'INCOME' / 'Debt Repayment' row, noted "Settled: <person>". The flag is not checked first. |
| Ledger.Step | server/index.js:18-97 | A request that cannot succeed leaves the whole database unchanged (rollback). For example, settling an id with no receivable changes nothing. A request that succeeds keeps the old ledger as a prefix and appends exactly one row. |
| Queries.ReduceIsSum | server/index.js:12 | The left fold with a running sum, as `reduce` computes it, equals the plain sum of the balances. |
| Queries.ListSources | server/index.js:10-14 | The source list returns every source row unchanged, with `total` equal to the sum of all balances. |
| Queries.Unsettled | server/index.js:62 | The filter keeps each receivable whose `is_settled` is 0 exactly as often as it occurs in the table, drops every settled one, and never yields more rows than it was given. |
| Queries.OpenReceivables | server/index.js:61-64 | The open list holds exactly the receivables with `is_settled = 0`, each as often as in the table, ordered by `created_at` with newest first. |
| Queries.OrDefault | server/index.js:37-38 | A parsed page or limit is kept unless it is NaN or 0. In those two cases the default is used. |
| Queries.CeilDiv | server/index.js:52 | `totalPages` is the ceiling of `totalRecords / limit`, for a positive and for a negative limit alike. |
| Queries.Window | server/index.js:47-48 | `LIMIT l OFFSET o` takes rows `o, o+1, ...` of its input, `l` of them at most. A negative offset counts as 0 and a negative limit means no limit. |
| Queries.SourceName | server/index.js:43-45 | `source_name` is the name of the source the row references. It is 'Unknown' when `source_id` is NULL or matches no source. |
| Queries.Enrich | server/index.js:43-45 | The join keeps the ledger rows as given, in order, and pairs each with its source's name, or 'Unknown' through `SourceName`. |
| Queries.History | server/index.js:36-54 | `page` defaults to 1 and `limit` to 10. The data rows are the window at offset (page−1)·limit of the ledger ordered by date. `totalRecords` is the ledger size and `totalPages` is ceil(totalRecords/limit). |
| Queries.HistoryNames | server/index.js:43-45 | Each history row carries the name of the source its `source_id` names, or 'Unknown' when it is NULL or names no source. |
| Ordering.SortDesc | server/index.js:46 | Ordering by a key, descending, returns a permutation of the rows whose keys never increase. The order of equal keys is left open. |
| Paging.HistoryNewestFirst | server/index.js:42-48 | Every history page lists ledger rows that exist, in non-increasing date order. |
| Paging.RowOnPage | server/index.js:46-48 | With a positive limit, row m of page `page` (m below the limit) is row (page−1)·limit + m of the date-ordered ledger whenever that row exists. |
| Paging.EveryRowOnItsPage | server/index.js:37-52 | With a positive limit, every row of the date-ordered ledger appears on some page numbered within 1 .. totalPages, so the pages cover every row. |
| Paging.PositionsAreDistinct | server/index.js:39-48 | With a positive limit, two different (page, position) pairs address two different offsets of the date-ordered ledger. |
| Paging.NoRowOnTwoPages | server/index.js:39-48 | In a database whose ids are valid and with a positive limit, the same ledger row is never shown at two different (page, position) pairs, so no row appears on two pages. |
| Paging.PagesBeyondTotalAreEmpty | server/index.js:39-52 | With a positive limit, a page from 1 on is non-empty exactly when its number is at most totalPages. |
| Paging.TwentyFiveRowsThirdPage | server/index.js:36-54 | With 25 ledger rows, page 3 at limit 10 has 5 rows, and there are 3 pages. |
| Paging.EmptyLedgerHistory | server/index.js:36-54 | With no query parameters on an empty ledger, the result is no rows, page 1, limit 10, 0 records and 0 pages. |
| Reconcile.StepReconciles | server/index.js:23-28 | Every request keeps each source's balance minus the signed sum of its ledger rows unchanged, whether it succeeds or is rolled back. 'EXPENSE' rows count as minus and all others as plus. |
| Reconcile.ReplayReconciles | server/index.js:18-95 | After any sequence of record, lend and settle requests, each source's balance equals its starting balance plus the signed sum of the ledger rows added for it since. |
| Reconcile.SeededLedgerReconciles | server/index.js:18-95 | From the seeded database, after any requests there are still the same three sources, with their seed ids, names and types. Each balance equals its seed balance plus the signed sum of all ledger rows naming it. |
| Reconcile.StepWellFormed | server/db.js:8-33 | Ids in every table stay positive, unique and strictly increasing in insertion order across every request. |
| Reconcile.ReplayWellFormed | server/db.js:8-33 | The same holds across any sequence of requests. |
| Reconcile.StepSettledOnlyGrows | server/index.js:89 | No request removes a receivable or changes its person, amount, reason, id or date. None turns a settled receivable back into an open one. |
| Reconcile.ReplaySettledOnlyGrows | server/index.js:84-99 | Settled is a one-way transition across any sequence of requests. |
| Reconcile.TotalFollowsLedger | server/index.js:10-14 | After a successful request, the total of the source list moves by exactly the signed amount of the new ledger row when that row names an existing source. Otherwise the total does not move. |
| Reconcile.SettleTwiceCreditsTwice | server/index.js:87-95 | Settling the same receivable twice into an existing source succeeds both times. The source gains the debt's amount twice and the ledger gains two rows of that amount. |
| Reconcile.SettleClosesReceivable | server/index.js:84-99 | After a successful settle, no receivable with that id is on the open list. |
| Reconcile.LendOpensReceivable | server/index.js:66-82 | After a successful lend, the new unsettled receivable is on the open list. |
| Scenarios.SpendFromWallet | server/index.js:15-34 | Spending 100 (type 'EXPENSE') from the seeded wallet of 800 leaves 700. It logs one row of 100, and the other accounts do not move. |
| Scenarios.LendFromWallet | server/index.js:66-82 | Lending 50 to Sam from a wallet of 700 leaves 650. It opens one unsettled receivable of 50, which is the whole open list. It logs 'EXPENSE' / 'Lending' / "Lent to Sam". |
| Scenarios.SettleToWallet | server/index.js:84-99 | Settling that receivable into the wallet of 650 brings it to 700 and marks the receivable settled, leaving the open list empty. It logs 'INCOME' / 'Debt Repayment' / "Settled: Sam". |

## Left out

- HTTP transport is not modelled: Express routing, CORS, JSON body parsing, response shapes, status codes and `app.listen` (server/index.js:1-9, 101-103).
- The history endpoint's `try`/`catch` and its 500 response are not modelled. The model's history query is total (server/index.js:55-58).
- Opening the database file, `verbose` logging and re-running `CREATE TABLE IF NOT EXISTS` are not modelled (server/db.js:1-4, 37). The model starts from `Empty()` and applies `SeedIfEmpty`.
- Floating-point REAL arithmetic and rounding are not modelled; amounts are exact reals.
- Clock values are not modelled. `now` is an abstract natural passed to each write operation, and the inserts of one operation share it. Its one-second resolution is not modelled.
- Foreign-key enforcement is not decided; it is the parameter `fk` in both settings.
- JavaScript dynamic typing is not modelled: non-numeric amounts, non-string types, string ids coerced by SQLite's type affinity, and `parseInt` on fractional or huge inputs. Request fields are typed values or `None`.
- `is_settled` is a boolean, because the code only ever writes 0 (the default) and 1.
- A NULL balance is not modelled. Only seeding inserts sources, and it always supplies a balance.
- The React client (src/App.jsx) and the styling configuration (tailwind.config.js) are not part of this model.
- Ordering.SortDesc: the order of ledger rows with equal dates, and of receivables with equal `created_at`, is fixed by this model's sort. Its contract promises only non-increasing keys, because SQL leaves ties unspecified.
- Reconcile.SeededLedgerReconciles: the statement covers only the sources present at the start. The endpoints never create sources, so no others exist.
- Paging.EveryRowOnItsPage: assumes every page query orders rows of equal date the same way. Each page is a separate `ORDER BY t.date DESC LIMIT ? OFFSET ?` query, SQL does not promise the same order of ties across queries, and dates have one-second resolution, so ties are common.
- Paging.PositionsAreDistinct: the same assumption of one tie order shared by every page query.
- Paging.NoRowOnTwoPages: the same assumption of one tie order shared by every page query.
