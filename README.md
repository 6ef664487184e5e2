# Mamma Che Pasta inventory core, in Dafny

This project models the inventory engine under the Flask routes of `app.py`.

- **Stock ledger (`calcola_magazzino`).** For every product, in name order, the
  ledger takes the initial trays, adds the trays produced and subtracts the
  trays ordered. Every order line is converted to trays by the ledger's rule.
  The result is the net stock in trays and in kilograms.
- **The views' conversion rule.** The order detail page, the load list and the
  two printed checklists convert each order line to kilograms and trays with
  the same rule, and keep running totals.
- **Order intake (`nuovo_ordine`).** The handler inserts the header first. It
  then checks the first ten line slots one by one and inserts the lines that
  pass. If none passes, it deletes the header again.
- **The simple write paths.** These are client, product and production intake,
  the two guarded deletes (a client with orders, a product with movements) and
  the cascading order delete.

The five tables are the fields of a class, `Inventory.Store`, and are updated in
place. Each table has an AUTOINCREMENT counter. The write paths are methods
whose contracts state the whole new state and keep the invariant `Inventory.Store.Valid`:
- distinct primary keys below the counter;
- unique client and product names;
- every order line has a positive quantity and the tag "kg" or "v";
- every production row has a positive tray count;
- every order header has at least one line, and every line has its header.

The last three are not declared in the schema. They hold because these
handlers are the only writers, and each checks its input before it writes.

The read paths are loops proved against pure specification functions:
- `StockLedger.Snapshot` for the stock ledger;
- `OrderViews.SheetOf`, `OrderViews.DaySheet` and `OrderViews.LoadRowOf` for the views.

Lemmas relate these functions to each other and to the write paths.

Modules:
- `Wrappers`: `Option` and `Result`.
- `Forms`: `float()`, `str.strip()`, `or None` and `or today` on form fields.
- `Units`: the unit tag and the two per-line rules.
- `Aggregates`: `SUM`, `COUNT` and `WHERE` over a table.
- `Collation`: the `ORDER BY` of names under SQLite's BINARY collation.
- `Schema`: the records.
- `StockLedger`: the snapshot.
- `OrderIntake`: the line slots.
- `OrderViews`: the joins behind the views.
- `Inventory`: the store.

Points of the code's behaviour that the model keeps as written:
- The tray tag is the text `"v"` (app.py:129, 361).
- Product intake never checks the sign of `kg_per_vaschetta` (app.py:233-238),
  so a factor may be zero or negative.
- On a zero or negative factor, the ledger counts a kilogram line as 0 trays
  (app.py:132). The views guard only a factor of exactly 0 (app.py:440, 603).
  `Units.RulesAgreeOnIntakeTags` states exactly when the two rules agree.
- SQLite does not enforce the declared foreign keys by default. An order may
  therefore name any client id, and a production entry any product id.

## Model

| member | source | states |
|---|---|---|
| Forms.StripIsTrimmedSlice | app.py:174-175 | `strip()` keeps one contiguous slice of its input and drops only whitespace before and after it |
| Forms.Strip | app.py:174-175 | stripping never lengthens a text, and a non-empty result starts and ends with a non-whitespace character |
| Forms.StripIdempotent | app.py:228-229 | stripping a stripped name changes nothing |
| Forms.OptionalText | app.py:174 | a code field of whitespace alone stores no code; any other field stores its stripped text, which is non-empty, has no whitespace at either end and is unchanged by stripping again |
| Units.ParseTipo | app.py:71 | the stored text reads as `Kg` exactly for "kg" and as `V` exactly for "v"; any other text stays an `Other` tag |
| Units.TipoRoundTrip | app.py:361-367 | reading a stored tag and writing it back are inverse on well-formed tags |
| Units.ViewConvert | app.py:438-443 | a kg line keeps its kilograms, and its trays times the factor give the kilograms back (0 trays when the factor is 0); every other line keeps its trays and has trays times factor kilograms |
| Units.LedgerTrays | app.py:129-133 | a "v" line counts its quantity; any other line counts trays whose product with a positive factor is the quantity, and 0 when the factor is not positive |
| Units.KgRoundTrip | app.py:438-443 | with a positive factor, converting kilograms to trays and back returns the kilograms, under both rules |
| Units.RulesAgreeOnIntakeTags | app.py:127-133 | on "kg" and "v" lines the ledger and the views count the same trays if and only if the line is "v", the factor is not negative, or the quantity is 0 |
| Units.RulesDisagreeOnOtherTags | app.py:601-606 | an unrecognised tag is kilograms to the ledger and trays to the views: with a positive factor other than 1 they disagree on every non-zero quantity |
| Aggregates.SumByAppend | app.py:127-130 | a running sum over two runs of rows is the sum of the two runs |
| Aggregates.SumBy | app.py:114-118 | definition: `SUM` as the running sum from the first row to the last, 0 on no rows; its properties are the `Aggregates.SumBy...` lemmas |
| Aggregates.SumByNonNegative | app.py:114-118 | a sum of values none of which is negative is not negative |
| Aggregates.SumByZero | app.py:127-133 | a sum of zeros is zero |
| Aggregates.SumByPermutation | app.py:115 | `SUM` does not depend on the order of the rows |
| Aggregates.SumByFilter | app.py:114-118 | summing a value masked by a condition equals summing over the rows `WHERE` selects |
| Aggregates.CountPositiveIff | app.py:206-207 | `COUNT(*) WHERE p` is positive exactly when some row satisfies `p` |
| Aggregates.CountBy | app.py:206-207 | `COUNT(*) WHERE p` is the number of rows `WHERE p` selects, never more than the table |
| Aggregates.Filter | app.py:212 | `WHERE` keeps only rows of the table that satisfy the condition and every row that does, never more rows than the table; one row is kept exactly when it satisfies the condition |
| Aggregates.FilterAppend | app.py:212 | filtering two runs of rows filters each run and keeps them in order; with the one-row case this fixes the order and multiplicity of the kept rows |
| Aggregates.FilterKeepsAll | app.py:212 | a delete whose condition matches no row leaves the table unchanged |
| Aggregates.DeleteByKey | app.py:212 | deleting by a unique key removes exactly the one row with that key, or nothing when there is none |
| Aggregates.FilterDistinct | app.py:31-33 | a delete keeps the primary keys distinct |
| Aggregates.DistinctAppend | app.py:31-33 | appending a row with a new key keeps the keys distinct |
| Collation.NameLeqTotal | app.py:105 | any two names are ordered one way or the other |
| Collation.NameLeqAntisymmetric | app.py:105 | two names ordered both ways are equal |
| Collation.NameLeqTransitive | app.py:105 | the name order is transitive |
| Collation.InsertBy | app.py:105 | inserting a row into sorted rows keeps them sorted and adds exactly that row |
| Collation.SortBy | app.py:105 | `ORDER BY` returns the same rows (as a multiset) in sorted order |
| Collation.SortedPairwise | app.py:105 | in a sorted result, every earlier row's key is at most every later row's key |
| Schema.FindClient | app.py:404 | the join finds a client with the requested id, or reports that none exists |
| Schema.FindProduct | app.py:422 | the join finds a product with the requested id, or reports that none exists |
| Schema.FindOrder | app.py:405 | the lookup finds an order with the requested id, or reports that none exists |
| StockLedger.SnapshotCoversProducts | app.py:105-110 | the snapshot has one entry per product: every product's entry is in it and every entry is some product's |
| StockLedger.ProducedTrays | app.py:114-118 | definition: the trays column summed over the production rows of the product, 0 when there are none |
| StockLedger.ProducedNonNegative | app.py:114-118 | production rows that are never negative add up to a total that is not negative |
| StockLedger.OrderedTrays | app.py:121-133 | definition: the ledger's trays summed over the order lines of the product, lines of other products counting 0 |
| StockLedger.NothingOrdered | app.py:121-133 | with no line of the product, 0 trays are ordered |
| StockLedger.StockOf | app.py:110-150 | definition: an entry carries its product's id, code, name, factor and initial stock, its produced and ordered trays, net trays = initial + produced − ordered, and net kg = net trays × factor |
| StockLedger.StockOfUntouched | app.py:135-136 | a product with no production and no lines has its initial stock as net trays, and that times the factor as net kg |
| StockLedger.Snapshot | app.py:98-153 | the snapshot has one entry per product row |
| StockLedger.SnapshotSorted | app.py:105 | the entries come in product-name order |
| StockLedger.SnapshotBalanced | app.py:135-136 | every entry has net trays = initial + produced − ordered and net kg = net trays × factor |
| StockLedger.NothingProduced | app.py:114-118 | a product with no production rows has produced 0 trays |
| StockLedger.ProducedIgnoresOrder | app.py:114-118 | the production total does not depend on the order of the production rows |
| StockLedger.OrderedIgnoresOrder | app.py:121-133 | the ordered trays do not depend on the order of the order lines |
| StockLedger.ProducedAfterAppend | app.py:114-118 | a new production row adds its trays to its own product's total and nothing to any other product's |
| StockLedger.OrderedAfterAppend | app.py:121-133 | new order lines add their converted trays to the ordered total |
| StockLedger.StockAfterProduction | app.py:135-136 | a new production row raises its product's produced and net trays by its trays and leaves ordered trays alone |
| StockLedger.SnapshotAfterProduction | app.py:98-153 | after recording production, every snapshot entry keeps its product and ordered trays, and only the produced product's net stock rises, by the new trays |
| StockLedger.SnapshotAfterOrder | app.py:98-153 | after new lines, every entry is still the entry of the same product, keeps its produced trays, and its ordered trays rise and net trays fall by the trays the new lines take from that product |
| StockLedger.LedgerMatchesViews | app.py:127-133 | with a factor that is not negative and only "kg"/"v" lines, the ledger's ordered trays equal the sum of the trays the views print |
| StockLedger.WorkedExample | app.py:127-136 | factor 2.5, initial 10, produced 20, lines (v, 5) and (kg, 25): ordered 15, net 15 trays and 37.5 kg |
| OrderIntake.CheckLine | app.py:343-362 | a slot passes exactly when it names a product, its quantity parses to a value > 0 and its type is "kg" or "v"; the line keeps that product, quantity and tag |
| OrderIntake.Examined | app.py:342 | only the first ten slots are examined, all of them when there are at most ten |
| OrderIntake.Survivors | app.py:342-369 | no more lines than slots survive, and each has a positive quantity and tag "kg" or "v" |
| OrderIntake.SurvivorsAppend | app.py:342-369 | slots are checked independently: two runs of slots yield the lines of each run, in order |
| OrderIntake.InvalidSlotSkipped | app.py:347-362 | an invalid slot is skipped without affecting the other slots |
| OrderIntake.SurvivorsMembers | app.py:342-369 | a line is kept if and only if some slot passes its checks and yields it |
| OrderIntake.AcceptedMembers | app.py:342-362 | a line is inserted if and only if one of the first ten slots yields it; at most ten lines are inserted |
| OrderIntake.Accepted | app.py:342-362 | at most ten lines are inserted, no more than the slots, each with a positive quantity and tag "kg" or "v" |
| OrderIntake.Materialise | app.py:364-368 | definition: the i-th inserted row has id `firstId + i`, the new order's id, and the i-th accepted line's product, quantity and tag; its properties are `OrderIntake.MaterialisedLines` and `OrderIntake.MaterialiseAppend` |
| OrderIntake.MaterialisedLines | app.py:364-368 | every inserted row belongs to the new order, has consecutive fresh ids, a positive quantity and tag "kg" or "v" |
| OrderIntake.MaterialiseAppend | app.py:364-369 | inserting one more line appends its row with the next id |
| OrderViews.HeaderOf | app.py:398-412 | a header is found exactly when the order exists and its client does, and is then that order joined with that client; never for an unknown id |
| OrderViews.Joined | app.py:398-407 | an order joins exactly when a client with its client id exists, and the header carries the order's id and date and that client's name and code |
| OrderViews.JoinProducts | app.py:414-425 | every joined line comes from a line whose product exists, joined with it, and every such line is joined; no more rows than lines |
| OrderViews.JoinProductsOne | app.py:414-425 | a single line gives its detail line, or none when its product is gone |
| OrderViews.JoinProductsAppend | app.py:414-425 | joining two runs of lines joins each run, in order; with the one-line case, each line whose product exists gives exactly one detail line |
| OrderViews.JoinProductsSums | app.py:414-446 | the kilogram and tray sums over the joined lines are the sums over the lines, each line counted once with what it prints (0 when its product is gone) |
| OrderViews.Detailed | app.py:414-425 | a line joins exactly when a product with its product id exists, and the detail line carries the line's quantity and tag and that product's name, code and factor |
| OrderViews.SheetQuery | app.py:414-425 | the lines of one order come in product-name order, no more of them than the order's lines |
| OrderViews.ViewOf | app.py:433-453 | a printed line keeps the product's name and code and carries the views' kilograms and trays for the line |
| OrderViews.TotalsAreRowSums | app.py:445-446 | an order's totals are the sums of its printed lines' kilograms and trays |
| OrderViews.SheetTotalsIgnoreOrder | app.py:424-446 | the totals are the same whether lines are summed in product-name order or rowid order |
| OrderViews.SheetOf | app.py:398-446 | a sheet carries its header, and its totals are the sums of its printed lines' kilograms and trays |
| OrderViews.OrderTotalsFromLines | app.py:414-446 | an order's totals are the sums over all stored lines of what each line of that order prints, 0 for other lines: each of its lines counts exactly once |
| OrderViews.JoinClients | app.py:794-807 | every header is an order joined with its client, and every order whose client exists gives its header; no more headers than orders |
| OrderViews.JoinClientsOne | app.py:794-807 | a single order gives its header, or none when its client is gone |
| OrderViews.JoinClientsAppend | app.py:794-807 | joining two runs of orders joins each run, in order; with the one-order case, each order whose client exists gives exactly one header |
| OrderViews.DayHeaders | app.py:794-807 | the day's headers come in day-sheet order (client name, then order id), no more of them than orders |
| OrderViews.DayHeadersOfDate | app.py:794-807 | the day sheet has a header for exactly the orders of that date whose client exists, by client name, then order id |
| OrderViews.DayHeadersSound | app.py:794-807 | every header of the day sheet is of that date and is an order of that date joined with its client |
| OrderViews.DayHeadersComplete | app.py:794-807 | every order of that date whose client exists has its header in the day sheet |
| OrderViews.DaySheet | app.py:785-812 | one sheet per header of the day, every sheet of that date |
| OrderViews.JoinLoad | app.py:568-587 | every load-list row is a line joined with its order, client and product, of the requested date, and every such line gives its row; at most one row per line |
| OrderViews.JoinLoadOne | app.py:568-587 | a single line gives its row, or none when it does not join |
| OrderViews.JoinLoadAppend | app.py:568-587 | joining two runs of lines joins each run, in order; with the one-line case, each line that joins gives exactly one row |
| OrderViews.LoadListOnePerLine | app.py:568-587 | the load list has exactly as many rows as lines that join, and is a permutation of the join |
| OrderViews.LoadJoined | app.py:568-587 | a line joins exactly when its order exists and is of the date, and its client and product exist; the row keeps the date, quantity and tag, the name and code of the order's client, and the name, code and factor of the line's product |
| OrderViews.LoadQuery | app.py:568-587 | the load-list rows come by client name, then product name, as many of them as the join gives and no more than lines |
| OrderViews.LoadRowOf | app.py:596-618 | a load-list row keeps the date, the client and product names and codes, and converts the line by the views' rule |
| OrderViews.LoadListOrdered | app.py:568-587 | the load list has a row for exactly the lines of that date's orders whose order, client and product exist, by client name, then product name |
| Inventory.ClientsInsert | app.py:28-36 | a client inserted with the next id and a new name keeps ids distinct and names unique |
| Inventory.ClientsDelete | app.py:212 | deleting clients keeps the table's constraints |
| Inventory.ClientRemoval | app.py:212 | deleting a client id removes exactly that one row, or nothing when the id is absent |
| Inventory.ProductsInsert | app.py:39-49 | a product inserted with the next id and a new name keeps ids distinct and names unique |
| Inventory.ProductsDelete | app.py:280 | deleting products keeps the table's constraints |
| Inventory.ProductRemoval | app.py:280 | deleting a product id removes exactly that one row, or nothing when the id is absent |
| Inventory.OrdersInsert | app.py:52-61 | a header inserted with the next id keeps the order ids distinct |
| Inventory.OrdersDelete | app.py:471 | deleting orders keeps the table's constraints |
| Inventory.OrderRemoval | app.py:471 | deleting an order id removes exactly that one header, or nothing when the id is absent |
| Inventory.HeaderWithdrawn | app.py:371-373 | a header inserted and deleted again leaves the orders table as it was, with the id consumed |
| Inventory.LinesOfOrderRemoved | app.py:469 | the cascade removes every line of the order and keeps every other line |
| Inventory.LinesInsert | app.py:64-76 | a line inserted with the next id, a positive quantity and tag "kg" or "v" keeps the table's constraints |
| Inventory.LinesDelete | app.py:469 | deleting an order's lines keeps the table's constraints |
| Inventory.ProductionInsert | app.py:79-89 | a production row inserted with the next id and a positive tray count keeps the ids distinct and the counts positive |
| Inventory.LinkedAfterOrder | app.py:333-382 | a new header together with at least one line of its own keeps every header with a line and every line with its header |
| Inventory.LinkedAfterDelete | app.py:464-475 | deleting an order with its lines keeps every header with a line and every line with its header |
| Inventory.StoredLinesMatchViews | app.py:121-133 | since every stored line is "kg" or "v", for any factor that is not negative the ledger's ordered trays equal the trays the views print |
| Inventory.Store.constructor | app.py:23-92 | a new database has five empty tables and every counter at 1 |
| Inventory.Store.InsertClient | app.py:180-184 | one client row is appended with the next id, and the table's constraints still hold |
| Inventory.Store.AddClient | app.py:173-192 | an empty stripped name or an existing name writes nothing; otherwise exactly one client is appended with the next id, the stripped name and the optional code |
| Inventory.Store.InsertProduct | app.py:244-251 | one product row is appended with the next id, and the table's constraints still hold |
| Inventory.Store.AddProduct | app.py:227-258 | a factor that is not a number, or an unparsable initial stock, is rejected first, then a missing name, then an existing name; otherwise exactly one product is appended, with initial stock 0 when that field is blank |
| Inventory.Store.RecordProduction | app.py:487-512 | an unparsable or non-positive tray count, or no product, writes nothing; otherwise exactly one production row is appended, dated today when no date is given |
| Inventory.Store.DeleteClient | app.py:200-216 | refused, with nothing changed, if and only if some order refers to the client; otherwise only that client row is removed |
| Inventory.Store.DeleteProduct | app.py:266-285 | refused, with nothing changed, if and only if some order line or production row refers to the product; otherwise only that product row is removed |
| Inventory.Store.DeleteOrder | app.py:464-475 | the order's lines and then its header are removed, nothing else changes, and every remaining header still has a line |
| Inventory.Store.InsertHeader | app.py:333-338 | the header is appended with the next order id, which is returned |
| Inventory.Store.InsertLines | app.py:340-369 | exactly the surviving lines are appended, in slot order with consecutive ids, and the count of inserted lines is returned |
| Inventory.Store.NewOrder | app.py:324-382 | no client: nothing is written. No surviving line: nothing persists except the consumed order id. Otherwise one new order with exactly the surviving lines, so every header keeps at least one line |
| Inventory.Store.OrderedOf | app.py:121-133 | the running sum over the order lines is the product's ordered trays under the ledger's rule |
| Inventory.Store.StockEntry | app.py:110-150 | one product's computed entry is its snapshot entry |
| Inventory.Store.StockSnapshot | app.py:98-153 | the loop over products returns the snapshot |
| Inventory.Store.Tally | app.py:429-446 | the loop returns the printed lines and the sums of their kilograms and trays |
| Inventory.Store.SheetLines | app.py:414-446 | an order's printed lines, in product-name order, with their totals |
| Inventory.Store.Sheet | app.py:398-461 | one order's header, printed lines and totals form its sheet |
| Inventory.Store.OrderDetail | app.py:393-461 | "not found" exactly when the order or its client is missing; otherwise the order's sheet |
| Inventory.Store.SheetsOf | app.py:817-877 | one sheet per header, in header order |
| Inventory.Store.DaySheets | app.py:785-812 | the sheets of exactly the orders of the date whose client exists (today's date when none is given), in day-sheet order; empty when there are none |
| Inventory.Store.LoadList | app.py:560-618 | one load-list row per row of the date's join (today's date when none is given), as many rows as the join gives, each converted by the views' rule with its product's factor, in load-list order |

## Left out

- Flask plumbing is not modelled: routing, `request.form` and `request.args`, `flash` messages, redirects and templates. The methods take the already-extracted field values, and their results stand for the flashed outcome.
- SQLite I/O is not modelled: connections, cursors, commits, and the DDL of `init_db` beyond the record shapes and the UNIQUE, NOT NULL and AUTOINCREMENT rules it declares. The tables are in-memory sequences in rowid order.
- Number parsing is abstract. A number field is blank, unparsable or a real number, after the `.replace(",", ".")` the handlers apply. `float()` also accepts "nan" and "inf"; those values, and the NaN that would pass `qta <= 0`, are not modelled.
- IEEE floating-point rounding is not modelled; quantities are exact reals. The `:.2f` and `:.3f` formatting of the CSV and printed files is left out as well.
- The CSV writing and UTF-8 BOM of the load list and of `export_magazzino` (app.py:590-668) are left out. So is the `.docx` generation (app.py:715-779, 814-890). The model stops at the rows and totals these outputs print.
- `stampa_checklist` (app.py:674-779) runs the same two queries and the same line loop as the order detail page. Its data is `Inventory.Store.OrderDetail`'s.
- The `lista_ordini` query (app.py:294-313) and the `statistiche` queries (app.py:897-928) are reporting queries only, and are left out.
- The kilogram column of the production page (app.py:531-543) is left out.
- The wall clock is not modelled: `datetime.today()` is the `today` parameter.
- Ids are integers. A non-numeric id text that SQLite would store as text is not modelled, and neither is AUTOINCREMENT exhaustion.
- Rows whose sort keys are equal come out in a fixed order in the model. SQLite leaves their order unspecified.
- Inventory.Store.RecordProduction: in the source, a missing product makes the insert fail with an unhandled NOT NULL error, not a flashed message. The model writes nothing and reports `ProductRequired`.
- `Forms.Float` and `Forms.DateOrToday` are helpers for `float()` on a number field and for `... or today` on a date field (app.py:234-236, 325). Their contracts only say what they compute, and the write paths' contracts state their effect.
