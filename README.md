# Order loader and daily summary, modelled in Dafny

This project models the order-ingestion core of a small Django back end. An
`OrderLoader` reads a JSON export of orders. Each raw order becomes an
`Order` row, and the rows are upserted into the `orders` table inside one
transaction. An order id that is already stored has its row overwritten in
place and keeps its surrogate key. Any other order is queued and inserted
in one `bulk_create`. The home page then shows, per calendar day, how many
orders there are and the sum of their totals, newest day first.

The modules follow the source:

- `Money` (`money.dfy`): two-place decimals, `_cents_to_decimal`, and the
  `numeric(10, 2)` columns.
- `Calendar` (`calendar.dfy`): naive `date`/`datetime` values and what
  their constructors accept.
- `Json` (`json.dfy`): decoded JSON values and the dict operations the
  loader applies to them.
- `DateParsing` (`date_parsing.dfy`): `_parse_datetime`. Its five
  `strptime` layouts are scanned field by field, as Python's regular
  expressions read them.
- `Orders` (`orders.dfy`) covers the `Order` model:
  - its columns and constraints;
  - the unsaved instance (`Draft`);
  - the write that checks the constraints (`Save`);
  - `__str__`;
  - `ordering = ['-created_at']`;
  - the live table as a class (`OrderTable`).
- `Ingestion` (`ingestion.dfy`) holds the loader as functions:
  - `_prepare_order`;
  - the choice of the order list;
  - one loop step, the loop, the bulk insert and the whole transaction
    (`Step`, `Walk`, `Insert`, `Upsert`, `Ingest`).
- `IngestProperties` and `IngestTheorems` (`ingest_properties.dfy`,
  `ingest_theorems.dfy`) prove what a run does:
  - when it commits;
  - what every row holds afterwards and what the counters say;
  - that it keeps the table invariant;
  - that running it twice changes nothing the second time.
- `OrderLoader` (`order_loader.dfy`) holds the imperative loader.
  `BulkCreateOrders` updates the `OrderTable` in place, loop by loop, and
  rolls it back on any exception. It is proved to end exactly as `Ingest`
  says.
- `Dashboard` (`dashboard.dfy`) is the per-day aggregation of the home
  view, as a fold over the stored orders.

Modelling choices:

- **The clock.** `datetime.now()` is a parameter, `now`.
- **Reading the file.** Opening the file and `json.load` are outside the
  model. `LoadFromFile` receives the decoded document.
- **The transaction.** A transaction is modelled as writes to the table
  followed, on an exception, by restoring the snapshot taken at its start.
- **Lookup by `order_id`.** `Order.objects.filter(order_id=…)` is a lookup
  in a map keyed by `order_id`. The key is unique, so this is exact.
- **Values assigned to text columns.** The model treats them as follows:
  - text stays text;
  - an integer becomes its decimal text, as the ORM's `str()` makes it;
  - `None` becomes SQL NULL;
  - any other value (a list or a dict) is treated as NULL, where the ORM
    would store its `str()` (see "## Left out").
- **Database constraints.** A NULL, an over-long text or an amount beyond
  `numeric(10, 2)` is a constraint error from the database. So is a
  repeated `order_id`.

## Model

| member | source | states |
|---|---|---|
| Money.CentsToDecimal | backend/devpro/base/order_loader.py:75-77 | dividing an integer number of cents by 100 is exact: the decimal is worth exactly that many hundredths |
| Money.CentsToDecimalExamples | backend/devpro/base/order_loader.py:76 | 5890 cents are 58.90, -5 cents are -0.05 and 0 cents are the zero amount |
| Money.DecimalDigits | backend/devpro/base/models.py:26-28 | a two-place decimal is determined by its sign, the digits before the point and the two digits after it |
| Money.FitsColumnDigits | backend/devpro/base/models.py:26 | a `numeric(10, 2)` column holds an amount exactly when it has at most eight digits before the point |
| Money.Add | backend/devpro/base/views.py:14 | the SQL sum of two amounts is exact to the cent |
| Calendar.DateBeforeIsStrictTotalOrder | backend/devpro/base/views.py:15 | the date order used by `order_by('-date')` is irreflexive, asymmetric, transitive and total |
| Calendar.AtOrBeforeIsTotalOrder | backend/devpro/base/models.py:35 | the timestamp order used by `-created_at` is reflexive, total, antisymmetric and transitive |
| Json.Subscript | backend/devpro/base/order_loader.py:58 | `d[key]` succeeds exactly on a dict holding the key, returning its value; a dict without it raises `KeyError(key)` |
| DateParsing.TryLayout | backend/devpro/base/order_loader.py:95 | whatever `strptime` returns for a layout is a real calendar date and time |
| DateParsing.FirstMatch | backend/devpro/base/order_loader.py:93-97 | a result comes from one of the layouts, with none before it parsing; no result means no layout parses |
| DateParsing.ParseText | backend/devpro/base/order_loader.py:79-99 | empty text gives `now`; text no layout parses gives `now`; text some layout parses gives the value of the first such layout (`FirstMatch`), a real date and time |
| DateParsing.ParseDateTime | backend/devpro/base/order_loader.py:79-99 | a falsy value gives `now`; truthy text gives `ParseText` of it, that is the first parsing layout's value or else `now`; the call succeeds exactly for falsy values and text; other values raise the `TypeError` of `strptime` |
| DateParsing.TryLayoutRendered | backend/devpro/base/order_loader.py:85-91 | each of the five layouts parses its own rendering of any valid timestamp back to the fields that layout carries |
| DateParsing.LayoutsAreExclusive | backend/devpro/base/order_loader.py:85-91 | no text is accepted by two different layouts, so the order they are tried in decides nothing |
| DateParsing.FirstMatchFinds | backend/devpro/base/order_loader.py:93-97 | whichever listed layout parses the text, the loop returns that layout's result |
| DateParsing.ParseRendered | backend/devpro/base/order_loader.py:79-99 | round trip: parsing the rendering of a valid timestamp in any layout gives back the timestamp, cut to the fields the layout carries |
| DateParsing.ParseExampleIsoFractionZ | backend/devpro/base/order_loader.py:86 | "2024-01-15T10:30:00.123456Z" parses to 15 January 2024 10:30:00.123456 |
| DateParsing.ParseExampleIsoZ | backend/devpro/base/order_loader.py:87 | "2024-01-15T10:30:00Z" parses to 15 January 2024 10:30:00 |
| DateParsing.ParseExampleIsoLocal | backend/devpro/base/order_loader.py:88 | "2024-01-15T10:30:00" parses to 15 January 2024 10:30:00 |
| DateParsing.ParseExampleSpaceSeparated | backend/devpro/base/order_loader.py:89 | "2024-01-15 10:30:00" parses to 15 January 2024 10:30:00 |
| DateParsing.ParseExampleDateOnly | backend/devpro/base/order_loader.py:90 | "2024-01-15" parses to midnight of 15 January 2024 |
| DateParsing.NoDatePrefixFallsBack | backend/devpro/base/order_loader.py:99 | text that does not start with a `%Y-%m-%d` date falls back to `now` |
| DateParsing.MonthThirteenFallsBack | backend/devpro/base/order_loader.py:93-99 | "2024-13-01" matches no layout and gives `now` |
| DateParsing.FebruaryThirtiethFallsBack | backend/devpro/base/order_loader.py:93-99 | "2024-02-30" scans as a date but is not one, so every layout fails and the result is `now` |
| DateParsing.ScanFractionDigits | backend/devpro/base/order_loader.py:86 | `%f` reads six rendered digits back as the same number of microseconds |
| Orders.TextColumn | backend/devpro/base/models.py:14-23 | a `varchar(n)` column accepts a value exactly when it is not NULL and at most `n` characters long, and stores it unchanged |
| Orders.NumericColumn | backend/devpro/base/models.py:26-28 | a `numeric(10, 2)` column accepts exactly the amounts that fit and stores them unchanged |
| Orders.Save | backend/devpro/base/models.py:12-31 | a write stores a row that fits every column constraint and reads back as the instance; it fails only when no such row exists |
| Orders.SaveStoredRow | backend/devpro/base/models.py:12-31 | writing a row that already fits the columns stores that same row |
| Orders.DescribeLayout | backend/devpro/base/models.py:42-43 | `str(order)` is "Order ", then the order id, then " - ", then the customer name, and nothing more |
| Orders.DescribeSeparatesIds | backend/devpro/base/models.py:42-43 | for the same customer name, two texts are equal exactly when the order ids are |
| Orders.InsertNewestFirst | backend/devpro/base/models.py:35 | placing an order into a newest-first list keeps it newest first and adds exactly that order |
| Orders.DefaultOrdering | backend/devpro/base/models.py:35 | the default ordering is newest first and a permutation of the rows |
| Orders.OrderTable.constructor | backend/devpro/base/models.py:33-34 | a new `orders` table is empty and satisfies the table invariant |
| Ingestion.CentsToDecimalOf | backend/devpro/base/order_loader.py:60 | an amount from the JSON converts exactly when it is an integer, to that many cents |
| Ingestion.PrepareOrder | backend/devpro/base/order_loader.py:56-73 | the instance holds the record as raw data and the date of its timestamp; its order id is the record's `id`, its customer fields those of the `customer` dict, its status the record's `status` (or "pending"), and a present `subtotal_price` or `total_discounts` is its amount in cents; success needs `createdAt.iso`; a dict without `createdAt` raises `KeyError`; the timestamp is `now` or a real one |
| Ingestion.SelectOrders | backend/devpro/base/order_loader.py:19 | a top-level array is the list of orders; an object gives its `orders` list, or none without the key; any other document is an error |
| Ingestion.PrepareAllAt | backend/devpro/base/order_loader.py:30-31 | preparing the batch up front gives, at each position, what line 31 gives for that record |
| Ingestion.PrepareAllDated | backend/devpro/base/order_loader.py:58-67 | with a real clock reading, every prepared instance has a real timestamp and its date |
| Ingestion.Step | backend/devpro/base/order_loader.py:31-43 | one loop pass keeps the table's keys and adds one to the queued plus updated count |
| Ingestion.Walk | backend/devpro/base/order_loader.py:30-43 | the loop keeps the keys; each record ends up queued or counted as an update |
| Ingestion.Insert | backend/devpro/base/order_loader.py:46-47 | a successful bulk insert hands out one surrogate key per queued instance and keeps every existing key |
| Ingestion.Upsert | backend/devpro/base/order_loader.py:23-54 | on commit, total = created + updated = the number of records, and every key already stored is still there |
| Ingestion.Ingest | backend/devpro/base/order_loader.py:23-54 | the same for a batch of raw records |
| IngestProperties.PrepareDefaults | backend/devpro/base/order_loader.py:60-71 | absent members default to status "pending", empty customer fields, zero discount, subtotal equal to the total, and zero total; a present total is taken cent for cent |
| IngestProperties.PrepareTimestamp | backend/devpro/base/order_loader.py:58-67 | the timestamp is `createdAt.iso` parsed, and the date is its calendar day |
| IngestProperties.PrepareClockFree | backend/devpro/base/order_loader.py:58 | a record whose `createdAt.iso` is text a layout parses prepares alike at every clock reading |
| IngestProperties.PrepareAllClockFree | backend/devpro/base/order_loader.py:30-31 | a batch of such records prepares alike at every clock reading |
| IngestProperties.PrepareOrderSucceeds | backend/devpro/base/order_loader.py:56-73 | a record prepares exactly when it has `createdAt.iso` (text or falsy), integer amounts where present, and a dict or nothing as `customer` |
| IngestProperties.Fresh | backend/devpro/base/order_loader.py:33-43 | the queue holds exactly the instances whose order id the table does not hold |
| IngestProperties.WalkErrPersists | backend/devpro/base/order_loader.py:30-31 | the first exception ends the loop with that error |
| IngestProperties.StepOk | backend/devpro/base/order_loader.py:33-43 | a stored id is overwritten in place, keeping its surrogate key, and counted; any other instance is queued |
| IngestProperties.WalkSucceeds | backend/devpro/base/order_loader.py:30-43 | the loop completes exactly when every record prepares and every instance with a stored id can be written |
| IngestProperties.WalkQueues | backend/devpro/base/order_loader.py:30-43 | after the loop the queue is the new-id instances in order, and the counter is the number of the others |
| IngestProperties.WalkRows | backend/devpro/base/order_loader.py:34-41 | after the loop each stored row holds the last instance with its id under its old key; rows the batch does not name are untouched |
| IngestProperties.InsertKeys | backend/devpro/base/order_loader.py:47 | after the bulk insert the keys are the old ones plus the queue's order ids |
| IngestProperties.InsertKeepsRows | backend/devpro/base/order_loader.py:47 | the bulk insert leaves every existing row as it was |
| IngestProperties.InsertNewRows | backend/devpro/base/order_loader.py:47 | the i-th queued instance is stored under its order id with the i-th next surrogate key |
| IngestProperties.InsertErrPersists | backend/devpro/base/order_loader.py:47 | once one queued row fails, the whole insert fails with that error |
| IngestProperties.InsertSucceeds | backend/devpro/base/order_loader.py:46-47 | the insert succeeds exactly when every queued instance can be written, none has a stored id, and no two share an id |
| IngestProperties.FreshDistinct | backend/devpro/base/order_loader.py:43-47 | the queue's ids are distinct exactly when no id the table lacks appears twice in the batch |
| IngestTheorems.UpsertSucceeds | backend/devpro/base/order_loader.py:23-54 | a run commits exactly when all records prepare, all instances can be written, and no new order id repeats |
| IngestTheorems.UpsertSteps | backend/devpro/base/order_loader.py:23-54 | a commit is the loop followed by the insert of the new-id instances; created is the queue length and updated is the rest |
| IngestTheorems.UpsertCounts | backend/devpro/base/order_loader.py:48-54 | created is the number of queued instances and updated the rest; the next surrogate key advances by created |
| IngestTheorems.UpsertKeys | backend/devpro/base/order_loader.py:30-48 | after a commit the table holds its old order ids and every order id of the batch |
| IngestTheorems.UpsertOldRows | backend/devpro/base/order_loader.py:34-41 | every stored row is replaced in full by the last instance with its id, keeping its surrogate key, or is untouched |
| IngestTheorems.UpsertNewRows | backend/devpro/base/order_loader.py:46-48 | new order ids become rows with fresh consecutive surrogate keys, in queue order |
| IngestTheorems.UpsertStoresLast | backend/devpro/base/order_loader.py:30-48 | every order id of the batch ends up holding the last record that carries it |
| IngestTheorems.UpsertDescribed | backend/devpro/base/order_loader.py:23-54 | every commit satisfies the loop-free description: counters, keys, rows kept or replaced, new rows, last writer wins |
| IngestTheorems.DescribedKeepsInvariant | backend/devpro/base/models.py:14-28 | a described commit keeps: each row under its own unique `order_id`, every column within limits, real timestamps with their dates, distinct surrogate keys |
| IngestTheorems.UpsertPreservesInvariant | backend/devpro/base/models.py:14-28 | a commit of dated instances keeps the table invariant |
| IngestTheorems.UpsertIdempotent | backend/devpro/base/order_loader.py:23-54 | running the same prepared batch again creates nothing, updates every record and leaves the table as it was |
| IngestTheorems.UpsertRerun | backend/devpro/base/order_loader.py:32-40 | a batch whose every order id is already stored with the values of its last record commits with no creations, one update per record and the table unchanged |
| IngestTheorems.PrepareAllOk | backend/devpro/base/order_loader.py:30-31 | the batch prepares without error exactly when every record does |
| IngestTheorems.IngestSucceeds | backend/devpro/base/order_loader.py:23-54 | a run over raw records commits exactly when every record prepares, every instance can be written and no new order id repeats |
| IngestTheorems.IngestRejectsMissingCreatedAt | backend/devpro/base/order_loader.py:58 | a record without `createdAt.iso` fails the whole run |
| IngestTheorems.IngestRejectsRepeatedNewId | backend/devpro/base/order_loader.py:43-47 | two records whose `id` members give the same order id, which the table lacks, fail the whole run |
| IngestTheorems.IngestRepeatedStoredId | backend/devpro/base/order_loader.py:34-41 | two records whose `id` members give a stored order id are both updates (0 created, 2 updated); the second wins and the row keeps its surrogate key |
| IngestTheorems.UpsertRepeatedStoredId | backend/devpro/base/order_loader.py:34-41 | the same, stated over the two prepared instances |
| IngestTheorems.IngestPreservesInvariant | backend/devpro/base/models.py:14-28 | with a real clock reading, a committed run keeps the table invariant, including unique `order_id` |
| IngestTheorems.IngestIdempotent | backend/devpro/base/order_loader.py:23-54 | loading the same records again gives (0, N, N) and the same table, at the same clock reading or at any other one when every record's `createdAt.iso` is text a layout parses |
| IngestTheorems.RerunRestampsFallback | backend/devpro/base/order_loader.py:79-81 | a record with an empty `createdAt.iso`, loaded again at another clock reading, has its row rewritten: the second run does not leave the table as it was |
| IngestTheorems.UpsertCreatesOne | backend/devpro/base/order_loader.py:42-48 | one instance with a new order id is created under the next surrogate key, counts (1, 0, 1) |
| IngestTheorems.UpsertUpdatesOne | backend/devpro/base/order_loader.py:34-41 | one instance with a stored order id overwrites that row, keeping its surrogate key, counts (0, 1, 1) |
| OrderLoader.ParseDatetime | backend/devpro/base/order_loader.py:79-99 | the loop over the layouts returns exactly what `ParseDateTime` specifies |
| OrderLoader.BulkCreate | backend/devpro/base/order_loader.py:46-47 | the in-place bulk insert ends in the state `Insert` specifies; on a constraint error the table is unchanged |
| OrderLoader.PrepareRecord | backend/devpro/base/order_loader.py:31 | preparing record `i` in the loop gives position `i` of the batch prepared up front |
| OrderLoader.SaveOrQueueOne | backend/devpro/base/order_loader.py:31-43 | one in-place loop pass: the rows, queue and counter it leaves are those of `Step`, or its error |
| OrderLoader.SaveOrQueue | backend/devpro/base/order_loader.py:30-43 | the in-place loop leaves the rows, queue and counter of `Walk`, or stops with its error |
| OrderLoader.InsertQueued | backend/devpro/base/order_loader.py:45-54 | after the loop, the bulk insert and the returned counters follow `Upsert`; when the insert fails the table is back at the snapshot |
| OrderLoader.BulkCreateOrders | backend/devpro/base/order_loader.py:23-54 | on commit, the counters and table are those of `Ingest`; on any exception, its error is returned and the table is rolled back |
| OrderLoader.TransactionKeepsInvariant | backend/devpro/base/order_loader.py:23-24 | whether the transaction commits or rolls back, the table invariant holds afterwards |
| OrderLoader.LoadFromFile | backend/devpro/base/order_loader.py:13-21 | chooses the orders as line 19 does, then loads them with the same outcome as `Ingest`; keeps the table invariant; a document with no usable list leaves the table unchanged |
| Dashboard.CountOn | backend/devpro/base/views.py:13 | the number of orders on a date is at most the number of orders |
| Dashboard.AddOrder | backend/devpro/base/views.py:12-15 | counting one order into the rows keeps dates strictly descending and adds its date to the row dates |
| Dashboard.AddOrderGroups | backend/devpro/base/views.py:13-14 | counting an order adds one to its date's count and its amount to its date's sum, and changes no other date |
| Dashboard.AddOrderCounts | backend/devpro/base/views.py:13 | every row still stands for at least one order, and the counts sum to one more |
| Dashboard.OrdersByDay | backend/devpro/base/views.py:12-15 | one row per distinct order date, strictly descending; each row's count and sum are those of its date's orders; counts sum to the number of orders |
| Dashboard.RowAt | backend/devpro/base/views.py:12-15 | with dates distinct, the row at each position is the one holding its date's count and sum |
| Dashboard.OrdersByDayRows | backend/devpro/base/views.py:12-15 | each row holds the count and the sum of exactly the orders on its date, and no date has two rows |
| Dashboard.OrdersByDayCoversDates | backend/devpro/base/views.py:12 | a date has a row exactly when some order falls on it |

## Left out

- Reading the file: `open` and `json.load` are I/O. `LoadFromFile` takes the decoded document, and a file that is missing or is not JSON is not modelled.
- The clock: `datetime.now()` is the parameter `now`, read once per run. The source reads it separately for each record that needs it.
- Time zones: timestamps are naive, as `strptime` returns them. What the database does with naive values under a time-zone setting is not modelled.
- Unicode: `strptime` also accepts non-ASCII decimal digits and Unicode whitespace. The model accepts only ASCII digits and ASCII whitespace.
- Non-integer amounts: `Decimal` of a JSON float or a numeric string is not modelled. Any amount that is not an integer is a conversion error. JSON booleans and floats are not among the modelled JSON values.
- Lists and dicts in text columns: a list or dict assigned to a text column is modelled as NULL. The ORM would store its `str()`.
- Iterating a non-list `orders` value: when `orders` is a non-empty string or dict, the loop would fail on its first element. `SelectOrders` reports the same `TypeError` directly.
- `batch_size=1000`: splitting the bulk insert into statements of 1000 rows changes nothing inside one transaction, so it is not modelled.
- Postgres storage details:
  - trailing spaces beyond a `varchar` limit are truncated rather than rejected;
  - the surrogate-key sequence does not roll back with the transaction.

  The model rejects over-long text and restores `nextId` on rollback.
- Decimal context: the 28-digit context of `Decimal` never rounds an amount that fits a column, so it is not modelled.
- Tie order: rows with equal `created_at`, and their relative order under `ordering = ['-created_at']`, are left to the database. `DefaultOrdering` is one order that satisfies the ordering.
- The rendered page: `home` renders a template. Only the `orders_by_day` query is modelled.
- IngestIdempotent: a second run leaves the table as it was only at the same clock reading, or when every record's `createdAt.iso` is text a layout parses. A record whose timestamp falls back to the clock is stamped again with the new reading, so the stored state changes (`RerunRestampsFallback`).
- BulkCreateOrders: its contract does not state the table invariant. `LoadFromFile` states it, through `TransactionKeepsInvariant`, given a valid starting table and a real clock reading.
- `Order.id`: the surrogate key is a number the model hands out in insertion order, starting from 1.
