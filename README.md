# Point-currency ledger (balance model)

This project models the balance module of a content site in Dafny
(`models/balance.js`). The module keeps two currencies, tabcoins and tabcash,
for users, content items and ad budgets. It never stores a running balance.
It appends signed operation rows to four tables and derives balances by
summing them:

- `user_tabcoin_operations`
- `user_tabcash_operations`
- `content_tabcoin_operations`
- `ad_tabcash_operations`

The model keeps these four tables as append-only sequences of `Operation`
records in the class `BalanceModel.Ledger`. The SQL strings are replaced by
appends to, and reads of, those sequences.

- **Routing** (`Routing`): three closed maps with a default.
  - `TableFor` picks the table for a balance-type key.
  - `BalanceFunctionFor` picks the aggregate function.
  - `StoredTag` decides whether the `balance_type` column is written, and what it holds.
- **Create** (`Ledger.Create`, spec `Operations.Created`): inserts one row into
  the routed table. With `withBalance` it also returns the routed aggregate,
  read after the insert.
- **Undo** (`Ledger.Undo`, spec `Operations.UndoRequest`): writes the negated
  operation through `create`, attributed to the undoing event.
- **Rate content** (`Ledger.RateContent`, specs `Operations.Staged`,
  `RateOutcome`, `Committed`):
  - It stages four rows: rater −2 tabcoin, owner ±1 tabcoin, rater +1 tabcash,
    and content ±1 tagged with the raw transaction type.
  - It reads the rater's tabcoin balance over the staged rows.
  - It fails with `InsufficientTabcoins(2)` when that balance is negative.
    Otherwise it commits all four rows and returns the content's
    total/credit/debit aggregate.
- **Provenance query** (`Ledger.FindAllByOriginatorId`, spec
  `Provenance.FindAll`): the union of the matching rows of the two user
  tables and the content table. Content tags are rewritten to
  `content:tabcoin:<tag>`.
- **Content aggregate** (`Ledger.GetContentTabcoinsCreditDebit`,
  `Aggregates.ContentBalanceOf`).

Assumptions, because the SQL function bodies are not part of the model:

- `get_user_current_tabcoins`, `get_user_current_tabcash`,
  `get_ad_current_tabcash` and `get_content_current_tabcoins` are taken to be
  the sum of `amount` over the recipient's rows in the table their names
  point to (`Routing.SummedTable`).
- `get_content_balance_credit_debit` is taken to return that sum as the total.
  Its credit is taken to be the sum over rows tagged `credit`, and its debit
  the sum over rows tagged `debit`.
- `initial` rows count only in the total, as the test at
  `tests/integration/api/v1/contents/[username]/[slug]/get.test.js:101-103`
  expects (total 1, credit 0, debit 0 for new content).

## Model

| member | source | states |
|---|---|---|
| `Routing.TableRouting` | models/balance.js:4-9 | `user:tabcoin`, `user:tabcash` and `ad:budget` each reach their own table, and exactly every other key (content keys, unknown keys) reaches `content_tabcoin_operations` |
| `Routing.BalanceFunctionMatchesTable` | models/balance.js:18-23 | the aggregate function chosen for a key always totals the table that key writes; `get_content_current_tabcoins` is chosen exactly for content-table keys |
| `Routing.StoredTagCases` | models/balance.js:11-16 | a tag is written iff the key does not start with `user:`; it is the short form for the four mapped keys and the raw key otherwise |
| `Routing.TagMatchesTable` | models/balance.js:71-75 | user-table rows never carry a tag, ad rows always carry `budget`, content rows carry one unless the key is under `user:` |
| `Routing.UnknownUserKeyFallsBackUntagged` | models/balance.js:54-55 | an unknown `user:` key lands in the content table with no tag |
| `Aggregates.SumAppend` | models/balance.js:58 | appending a row moves a balance by exactly that row's amount when it is the recipient's and selected, else not at all |
| `Aggregates.SumOrderIndependent` | models/balance.js:56 | a balance depends only on the multiset of rows, not on write order |
| `Aggregates.TotalSplitsByTag` | models/balance.js:81-93 | a content total is credit + debit + the rows with any other tag (`initial` among them) |
| `Aggregates.TotalIsCreditPlusDebit` | models/balance.js:88-92 | with only credit and debit rows, total = credit + debit |
| `Provenance.Select` | models/balance.js:29-43 | a table's selection holds exactly the labelled rows whose originator matches, and is no longer than the table |
| `Provenance.FindAllExact` | models/balance.js:25-51 | the query returns x iff x is a labelled row of the user-tabcoin, user-tabcash or content table whose originator equals the id or is in the list |
| `Provenance.FindAllLabels` | models/balance.js:31-41 | every returned label is `user:tabcoin`, `user:tabcash` or starts with `content:tabcoin:` |
| `Provenance.FindAllIgnoresAdTable` | models/balance.js:28-44 | ad-budget rows never change the query's result |
| `Provenance.SelectAppend` | models/balance.js:26 | a new row is appended to its table's selection exactly when its originator matches |
| `Provenance.ContentLabelRoundTrip` | models/balance.js:41 | the label `content:tabcoin:t` routes back to the content table, and `create` stores t again iff t is `credit`, `debit` or `initial` |
| `Provenance.LabelRoundTrip` | models/balance.js:54-72 | a queried row's label routes back to the row's own table, and stores the row's own tag iff the tag round-trips |
| `Operations.CreateAppendsOneRow` | models/balance.js:53-79 | create adds exactly one row to the routed table with recipient, amount, originator type and id copied unchanged; every other table is unchanged |
| `Operations.CreateBalance` | models/balance.js:56-58 | the `withBalance` total is the recipient's balance in the routed table before the insert plus the amount |
| `Operations.UndoOfQueriedRow` | models/balance.js:176-187 | undoing a queried row writes to its own table, same recipient, negated amount, originator (`event`, event id); the tag is kept iff it round-trips |
| `Operations.UndoTwiceRestores` | models/balance.js:176-187 | when the row's tag round-trips (credit, debit or initial on content rows; no tag on user rows), undoing the undo writes the original row back to the original table, up to its originator |
| `Operations.UndoTwiceRestoresAmount` | models/balance.js:176-187 | for every queried row, whatever its tag, undoing the undo writes to the row's own table, for the same recipient, with the original amount |
| `Operations.UndoCancels` | models/balance.js:176-187 | after undoing row i, the table's balances (and subtotals when the tag round-trips) equal those of the history without row i, with later rows still counted |
| `Operations.RatingWriteSet` | models/balance.js:96-127 | a rating stages exactly: rater −2 and owner ±1 tabcoin, rater +1 tabcash (all from the event), content ±1 tagged with the raw type (from the rater); +1 iff the type is `credit`; ad table untouched |
| `Operations.StagedRaterBalance` | models/balance.js:129 | the balance the check reads is the rater's old balance −2, plus the owner adjustment when the rater owns the content |
| `Operations.RatingAbortsIffNegative` | models/balance.js:159-167 | a rating fails iff the rater's resulting balance is below 0 (0 succeeds); the failure carries 2; a failed rating commits nothing; a committed one leaves the rater non-negative |
| `Operations.RatingContentResult` | models/balance.js:169-173 | a successful rating returns the content aggregate moved by the sign; credit moves only for `credit`, debit only for `debit` |
| `Operations.RatingProvenance` | models/balance.js:100-124 | the event's query result gains exactly the three user-side rows; the content row is found under the rater |
| `Operations.RatingWithZeroBalanceFails` | models/balance.js:161 | a rater with 0 tabcoins is refused with minimum 2, self-ratings included, and the event's query result is unchanged |
| `Operations.RatingFromFiveTabcoins` | models/balance.js:169-173 | a rater with 5 tabcoins crediting fresh content keeps 3; the content shows total 1, credit 1, debit 0 |
| `Operations.OwnerMayGoNegative` | models/balance.js:161 | the check guards only the rater: a debit rating can commit with the owner left at −1 |
| `BalanceModel.Ledger.Create` | models/balance.js:53-79 | the tables become `Created(old, req)`; the row is the request with its stored tag; with `withBalance` the total is the old routed balance plus the amount |
| `BalanceModel.Ledger.Undo` | models/balance.js:176-187 | the tables gain the inverse request's row: same recipient, negated amount, originator (`event`, id), tag parsed from the label |
| `BalanceModel.Ledger.FindAllByOriginatorId` | models/balance.js:25-51 | returns `FindAll` of the current tables |
| `BalanceModel.Ledger.GetContentTabcoinsCreditDebit` | models/balance.js:81-93 | returns the content's aggregate, whose total is credit + debit + other-tagged rows |
| `BalanceModel.Ledger.RateContent` | models/balance.js:95-174 | returns `RateOutcome` of the old tables, and commits the four staged rows on success and nothing on failure |

## Left out

- SQL text, parameter positions, `database.query` and the connection or transaction handle in `options`: these are foreign I/O. Their effect is modelled as appends to and reads of the four sequences.
- The aggregate SQL function bodies: they are assumed to be sums, as stated above.
- PostgreSQL visibility rules for data-modifying `WITH` queries and `RETURNING`: the model lets the rating check and the `withBalance` total read the rows just written.
- Atomicity: a failed rating is modelled as committing nothing. In the source the insert runs before the check throws, and rolling it back depends on the caller's transaction.
- Concurrency, row locking and isolation between concurrent ratings.
- Error formatting: the error class, its message text and `errorLocationCode` are reduced to `InsufficientTabcoins(2)`.
- Generated row ids and `created_at`.
- Row order: SQL gives no order inside the `UNION ALL` result. The model returns the tables in union order, each in insertion order. Order-free statements use membership or multisets.
- JavaScript property lookup also finds inherited keys such as `constructor` in the three maps. Keys are modelled as plain strings with only the listed entries.
- `LabelFor` gives the ad table the label `ad:budget`. The query never reads the ad table, so nothing uses that case.
- Undo of a row that create itself returned: such a row carries the short tag (`credit`), not a key. Undo is modelled on rows returned by `findAllByOriginatorId`, as its callers use it.
