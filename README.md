# gdax-scraper, modelled in Dafny

gdax-scraper subscribes to the GDAX (Coinbase Exchange) websocket feed, polls
the exchange for level-3 order-book snapshots, and stores feed messages and
order-book levels in a relational database. This project models the
sequential logic underneath that plumbing and proves properties of it:

- **Order-book rows** (`snapshot_rows.dfy`, module `SnapshotRows`):
  `parseBidAsk`, the bulk `batchInsertSnapshot` and the row-at-a-time
  `insertSnapshot`. Bids come before asks. Each row carries the product id,
  the sequence, the side tag `"bid"`/`"ask"`, the parsed price and size and
  the order id. A level that does not parse stops the work at that level.
- **Feed messages** (`messages.dfy`, module `MessageRows`): the twenty values
  `insertMessage` binds for one message, and the tuple the bulk insert of
  `batchInsertMessages` writes. The two differ only in the time: the bulk
  tuple writes it as text with four fractional digits, so it is truncated
  to 100 µs.
- **The message batch buffer** (`batch.dfy`, module `MessageBatch`):
  `batchInsertMessages` as a `Batcher` class whose `Push` appends to a
  `seq<Message>` field and whose `Flush` writes the whole buffer as one bulk
  insert and empties it. The goroutine's loop is `Run`, over a finite run of
  deliveries. A delivery is a received message, a message taken by the
  draining goroutine, or a tick.
- **The database** (`store.dfy`, module `Store`): a commit log of
  statements. `Exec` appends a statement when the server accepts it and
  changes nothing otherwise. Which statements are accepted is a fixed
  predicate given when the store is created.
- **Product-id selection** (`products.dfy`, module `Products`):
  `getProductIDs`, with its nine default ids and the `"all"` keyword.
- **The snapshot dispatch schedule** (`dispatch.dfy`, module `Dispatch`): the
  rate-limited loop of `Snapshots`, exactly as written, and the corrected
  schedule (see Findings).
- **The snapshot aggregator** (`aggregate.dfy`, module `Aggregate`): the
  loop that folds fetch results and errors into a map and an error list,
  and when it stops.
- **The subscription message** (`subscribe.dfy`, module `Subscription`): the
  `"subscribe"` request and its JSON shape.

Float parsing (`strconv.ParseFloat`) is a parameter
`parse: string -> Option<real>`. Fetch outcomes, feed messages and ticks are
inputs, as sequences of events.

Where the code departs from what it is evidently meant to do, the model
follows the code:
- An empty buffer would be expected to need no write. A tick with an empty
  buffer still issues the bulk insert, with an empty `VALUES` list
  (database.go:150-154).
- A snapshot cycle would be expected to end with one outcome per requested
  id. It does not always: the dispatch loop skips trailing ids, and the
  aggregator never finishes when ids repeat or when the list is empty.

## Model

| member | source | states |
|---|---|---|
| MessageRows.MessageRow | database.go:166-189 | one message binds twenty values; the value in position k is the message's field for column k of the `messages` column list |
| MessageRows.MessageRowRoundTrip | database.go:166-189 | no field is lost or altered by the prepared insert: the row reads back as the same message |
| MessageRows.BulkTime | database.go:134 | the bulk insert's time is the message time truncated to 100 µs: at most the time, less than 100 µs below it, and a multiple of 100 µs |
| MessageRows.BulkMessageRow | database.go:125-147 | the bulk tuple has the same twenty columns in the same order, each holding its field, with the time truncated to 100 µs |
| MessageRows.BulkRowRoundTrip | database.go:125-147 | a bulk row reads back as the message with its time truncated to 100 µs; every other field survives |
| MessageRows.BulkRowMatchesPreparedIff | database.go:125-189 | the bulk and prepared paths store the same row exactly when the time has no digits below 100 µs |
| MessageRows.InsertMessage | database.go:166-189 | one insert holding exactly that message's row; it is committed exactly when the store accepts it |
| MessageBatch.MessageValues | database.go:123-149 | one bulk tuple per buffered message, in buffer order |
| MessageBatch.Batcher.Push | database.go:120-121 | a received message goes to the end of the buffer |
| MessageBatch.Batcher.Flush | database.go:122-158 | a tick issues one bulk insert of exactly the buffered messages in order, even when the buffer is empty; afterwards the buffer is empty whether or not the write succeeded |
| MessageBatch.OnePayloadPerTick | database.go:150-158 | exactly one outcome is reported per tick |
| MessageBatch.ReceivedMessagesConserved | database.go:111-158 | the tick payloads followed by the current buffer are exactly the messages the batching goroutine received, in order: none lost, none duplicated |
| MessageBatch.Run | database.go:117-161 | over any run of deliveries, the buffer is the messages received since the last tick, there is one outcome per tick, and the store commits exactly the accepted tick payloads in order |
| SnapshotRows.ParseBidAsk | database.go:198-208 | a level parses exactly when it has three elements and both price and size parse; the price is checked before the size; the order id is taken verbatim; a too-short level is a fault at the first missing index |
| SnapshotRows.SideRowsShape | database.go:210-225 | one row per level of a side, in input order, each carrying product id, sequence, side tag, parsed price and size, and order id |
| SnapshotRows.SideRowsOkIff | database.go:211-215 | a side yields rows exactly when every one of its levels parses |
| SnapshotRows.SideRowsFirstFailure | database.go:211-215 | a side's failure names its first level that does not parse, and why |
| SnapshotRows.SnapshotRowsLayout | database.go:210-240 | the bulk rows are every bid row, then every ask row, |bids| + |asks| in all, each side in input order |
| SnapshotRows.SnapshotRowsFailure | database.go:210-240 | building the rows fails exactly when some bid or ask does not parse; the error names the first such level, every bid being examined before any ask |
| SnapshotRows.SideValues | database.go:210-225 | the loop over one side returns that side's rows, or the error of its first bad level |
| SnapshotRows.BuildSnapshotValues | database.go:210-240 | the two loops return the bid rows followed by the ask rows, or the first parse error |
| SnapshotRows.BatchInsertSnapshot | database.go:197-247 | a parse error returns that error and writes nothing; otherwise a single insert of all rows, committed exactly when accepted |
| SnapshotRows.SideInsertsPrefix | database.go:264-281 | on one side, the inserts committed are one per level of a prefix of the levels; with no error the prefix is every level; with an error, the error names the level just past the prefix and why it failed |
| SnapshotRows.InsertRunStopsAtFailure | database.go:262-300 | insertSnapshot stops at the first level that fails to parse or insert, bids before asks; the inserts left committed are exactly those of the levels before it |
| SnapshotRows.SideInsertsMatchSideRows | database.go:264-281 | a side that goes through without error commits one single-row insert per row that the bulk path builds for that side |
| SnapshotRows.InsertRunMatchesBatchRows | database.go:249-303 | when insertSnapshot succeeds, it commits exactly the rows batchInsertSnapshot would build, one statement per row, in the same order |
| SnapshotRows.InsertSide | database.go:264-281 | the loop over one side commits the run's inserts and returns the first error, or one result per level in order |
| SnapshotRows.InsertSnapshot | database.go:249-303 | commits the single-row inserts of the run and returns its error, or one result per level, bids then asks, in order |
| Products.AllIsNotAProduct | main.go:155-165 | `"all"` is not one of the nine default ids |
| Products.FirstUnknown | main.go:173-182 | the position of the first entry that is not a default id; every entry before it is a default id |
| Products.SelectFromFirstUnknown | main.go:173-184 | the scan is decided by the first entry that is not a default id: none gives the input unchanged, `"all"` gives the default list, anything else an error naming it |
| Products.SelectCases | main.go:154-185 | an empty request gives the nine default ids; otherwise the first non-default entry decides as above |
| Products.SelectOnlyKnown | main.go:154-185 | any accepted result holds only default ids |
| Products.SelectUnchangedIff | main.go:173-184 | a non-empty request comes back unchanged, order and duplicates kept, exactly when every entry is a default id |
| Products.SelectRejects | main.go:173-182 | a request is rejected exactly when an unknown entry comes before any `"all"`; the error is "invalid product id: " followed by the first unknown entry |
| Products.GetProductIds | main.go:154-185 | the lookup-table loop and the left-to-right scan return what the selection rules above say |
| Dispatch.RoundAsWritten | gdax/gdax.go:122-123 | round i holds at most three products, starting at offset i |
| Dispatch.ScheduleAsWritten | gdax/gdax.go:121-123 | n / 3 + 1 rounds (integer division), each of at most three fetches |
| Dispatch.DispatchRounds | gdax/gdax.go:120-134 | the dispatch loop produces exactly the rounds above, and every slice it takes is within bounds |
| Dispatch.AsWrittenFetchesPrefix | gdax/gdax.go:121-123 | every product among the first n / 3 + 3 entries is fetched |
| Dispatch.AsWrittenMissesTail | gdax/gdax.go:121-123 | with distinct products, none at position n / 3 + 3 or later is ever fetched |
| Dispatch.AsWrittenMissesLast | gdax/gdax.go:121-123 | with five or more distinct products, the last one is never fetched |
| Dispatch.AsWrittenMissesDefaultTail | gdax/gdax.go:121-123 | with the nine default ids, LTC-USD, LTC-EUR and LTC-BTC are never fetched |
| Dispatch.AsWrittenRepeatsSecond | gdax/gdax.go:121-123 | with three or more products, the second is fetched in two rounds |
| Dispatch.RoundChunked | gdax/gdax.go:122-123 | corrected round i holds at most three products, starting at offset 3i |
| Dispatch.ScheduleChunked | gdax/gdax.go:121-123 | the corrected schedule keeps n / 3 + 1 rounds of at most three fetches |
| Dispatch.ChunkedPrefix | gdax/gdax.go:121-123 | the first k corrected rounds, one after the other, are the first 3k products |
| Dispatch.ChunkedCoversOnce | gdax/gdax.go:121-123 | the corrected rounds, one after the other, are the request itself: every product is fetched exactly once, in order |
| Dispatch.DispatchChunks | gdax/gdax.go:120-134 | the corrected loop produces the corrected schedule |
| Dispatch.FlattenDispatched | gdax/gdax.go:121-123 | every product in the rounds, one after the other, is dispatched by some round |
| Aggregate.FetchEvents | gdax/gdax.go:124-130 | each fetch sends exactly one result for its id, last; a failed fetch first sends its error and its result has no book |
| Aggregate.Aggregate | gdax/gdax.go:136-152 | the loop holds the map and error list of the events it consumed; it stops at the first result that brings the map to n keys, and consumes everything when there is none |
| Aggregate.ResultsKeys | gdax/gdax.go:142-143 | the map's keys are exactly the ids of the results received |
| Aggregate.LastResultWins | gdax/gdax.go:143 | a later result for an id overwrites an earlier one |
| Aggregate.ErrorsInArrivalOrder | gdax/gdax.go:147-148 | errors are kept in arrival order |
| Aggregate.NeverStopsOnEmptyRequest | gdax/gdax.go:142-146 | with no ids requested the aggregator never finishes |
| Aggregate.NeverStopsWithDuplicates | gdax/gdax.go:142-146 | when requested ids repeat, the aggregator never finishes |
| Aggregate.StopsWhenEveryIdReported | gdax/gdax.go:142-146 | with distinct ids and a result for each of them, the aggregator reaches its stopping point |
| Aggregate.AsWrittenNeverStops | gdax/gdax.go:121-146 | with five or more distinct ids fetched by the schedule as written, the aggregator never finishes |
| Aggregate.ChunkedStops | gdax/gdax.go:121-146 | with the corrected schedule, distinct ids and a result for every fetch, the aggregator finishes |
| Aggregate.ArrivalsReport | gdax/gdax.go:124-130 | when fetches send their events one fetch after another, every fetch, failed or not, reports a result for its product; results are only for fetched products; the errors are those of the failed fetches, in fetch order |
| Aggregate.ChunkedFetchesComplete | gdax/gdax.go:121-152 | with the corrected schedule and distinct ids, the aggregator finishes whatever the fetches' outcomes, failures included |
| Aggregate.AsWrittenFetchesNeverComplete | gdax/gdax.go:121-152 | as written, with five or more distinct ids, the aggregator never finishes, whatever the outcomes of the fetches the schedule makes |
| Subscription.Subscribe | gdax/gdax.go:47 | the subscription has type "subscribe" and carries the requested channels unchanged; the JSON object sent starts with "type": "subscribe" and reads back as exactly the requested channels |
| Subscription.ChannelsRoundTrip | gdax/gdax.go:22-25 | channel names and product ids survive the JSON encoding, in order |

## Left out

- Network I/O: the websocket dial, write and read loop of `Subscribe`, and the HTTP fetch of `Snapshot` (gdax/gdax.go:40-64, 74-98). A fetch's outcome is an input to `FetchEvents`. The read loop sends both an error and an empty message on a failed read; that is not modelled.
- Aggregate.ArrivalsReport, Aggregate.ChunkedFetchesComplete, Aggregate.AsWrittenFetchesNeverComplete: the fetches' events arrive one fetch after another. Interleavings of different fetches' events are covered only through the event-level lemmas, which take the reporting facts as hypotheses.
- Concurrency: goroutines, channels and `select`. Their interleaving is an input sequence of events (`MessageBatch.Delivery`, `Aggregate.Event`). The draining goroutine of `batchInsertMessages` appears as `Stolen` deliveries. The one-second wait between dispatch rounds is one round per element of the schedule, not a clock.
- Database setup: `prepareDB`, `prepareStmts`, connections and all of app.go. `Exec` depends only on the statement through the `accepts` predicate. Driver-level results such as rows affected are a log position (`Receipt`).
- SQL text: the `%v` string building, quoting and escaping of the bulk inserts. Rows are typed value tuples. A bulk insert with no rows (invalid SQL, `VALUES ;`) is an `Insert` with no rows, and the `accepts` predicate decides its fate.
- Floating point: `strconv.ParseFloat`, float64 rounding and `%v` formatting. Parsing is the `parse` parameter; numbers are `real`.
- Time: message times are nanoseconds since the Unix epoch. The bulk path's text formatting at database.go:134 is modelled only by its effect, truncation to 100 µs. The literal `Z` in that layout is taken to mean the time is in UTC; time zones are not modelled. The statements are compared as written, not as stored: the `time` column keeps microseconds, and that resolution is not modelled. Exchange times carry at most microseconds, so the rounding does not arise for them.
- SnapshotRows.ParseBidAsk: indexing a level with fewer than three elements panics in Go and crashes the program. The model returns a value instead: `IndexOutOfRange` with the first missing index.
- Error texts: the wrapped error messages are error constructors. Only "invalid product id: " is modelled as text.
- The command-line flags (main.go:16-62) and the main loop `run` (main.go:106-151). This includes the wrong error value logged at main.go:148.
- `GetSnapshotsEvery`, called at main.go:93, is not part of this model. Neither is the file defining `gdax.Snapshot`; its four fields are taken from their uses in database.go.
- Decoding the order-book JSON (gdax/gdax.go:67-71) and the `OrderBookResult` send (gdax/gdax.go:151).
- Subscription.Subscribe: Go encodes a nil slice as `null`, and the model has no nil slices. JSON is a value tree, not text: whitespace and escaping are not modelled.

## Findings

| source | as written | input that shows it | evidently intended | confidence | as-written member | corrected member |
|---|---|---|---|---|---|---|
| gdax/gdax.go:121-123 | round i fetches `productIDs[i:min(i+3, n)]`, so rounds start one entry apart and overlap | the nine default ids: the rounds are entries 0-2, 1-3, 2-4 and 3-5. LTC-USD, LTC-EUR and LTC-BTC are never fetched, so the aggregator never reaches nine keys and no snapshot result is ever sent | round i fetches `productIDs[3i:min(3i+3, n)]`, so every id is fetched exactly once, at most three per second | high (not executed) | Dispatch.AsWrittenMissesDefaultTail | Dispatch.ChunkedCoversOnce |
