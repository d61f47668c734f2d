# Stock alarm tracker — a Dafny model of its polling engine, store, routes and client lists

The tracker keeps a table of stocks. Each stock has a unique upper-case symbol, an alarm price, and an alarm direction (`above` or `below`).

A price monitor polls a quote source for every stock. Each poll writes the fresh price to the row and broadcasts the row to the connected dashboards. When the price has crossed the alarm since the previous poll, the monitor also records an alert and broadcasts it. An Express router creates, edits and deletes stocks. The React dashboard folds the socket events and the handlers' answers into its lists.

This project models:

- **`types.dfy`** (`Types`): the table rows, notification records, socket events and quote answers.
- **`crossing.dfy`** (`Crossing`): the edge detector `hasCrossed`. It also defines a reference count of side changes over a series of prices.
- **`store.dfy`** (`Store`): the two SQLite tables as an in-memory class `Database`.
  - A `map` from id to row and a `seq` of notification records in insertion order.
  - Counters stand in for AUTOINCREMENT and a clock for `CURRENT_TIMESTAMP`.
  - Its `Valid()` invariant covers key/id agreement, unique symbols, the foreign key, and records in chronological order.
- **`notifier.dfy`** (`Notifier`): the socket hub, as the append-only trace of the events it emitted.
- **`monitor.dfy`** (`Monitor`): `PriceMonitor`, its `start`/`stop` timer state, `runCycle` and `processStock`.
  - The quote source is a function `fetch` from symbol to `QuoteFailure` or `Quote(symbol, shortName, price)`.
  - The effects of a cycle are specified by pure functions: `Polled` for each row, and `CycleAlerts` / `CycleEvents` for the records and events.
- **`routes.dfy`** (`Routes`): the zod schemas, symbol normalisation (`trim` then `toUpperCase`), and the five handlers of `createStocksRouter` as methods over the table and the hub.
  - Each handler returns a `Response` whose `Status` is the HTTP status.
  - An error passed to `next` becomes a 500 through the application's error handler (`server/src/index.ts:27-37`). This includes a request body the schema refuses, so the model answers `ServerError` there.
- **`client.dfy`** (`Client`): the list updaters of `App.tsx` as functions from list to list.

In three places the code behaves in a way a reader might not expect; the model follows the code:

- Validation errors are answered with 500, not with a dedicated client-error status.
- The symbol's non-empty check runs before it is trimmed, so a symbol of white space only passes validation and normalises to the empty string (`Routes.BlankSymbolAccepted`).
- The `stock:update` event of a poll carries the row as re-read after the price write. That row has the new `last_price` and `updated_at` but the previous `last_alert_at`, because `updateLastAlert` runs after the broadcast.

## Model

| member | source | states |
|---|---|---|
| Crossing.HasCrossed | server/src/priceMonitor.ts:77-83 | with no last price nothing is crossed; otherwise crossed iff the last price is strictly off the alarm side and the new price is on it (at or above for `above`, at or below for `below`) |
| Crossing.CrossingInequalities | server/src/priceMonitor.ts:79-82 | `above`: crossed iff last < alarm <= latest; `below`: crossed iff last > alarm >= latest |
| Crossing.Transitions | server/src/priceMonitor.ts:77-83 | reference count of moves onto the alarm side between consecutive observed prices; at most one per consecutive pair |
| Crossing.StayingOnSideTransitionsOnce | server/src/priceMonitor.ts:77-83 | a series that stays on the alarm side after its first price has exactly one transition if it started off the side, none otherwise |
| Monitor.StockAlertsOfCrossing | server/src/priceMonitor.ts:53-63 | a stock's task records one notification exactly when its quote crosses, carrying the next id, the stock, the message of the snapshot row, the fetched price and the cycle's time |
| Monitor.StockEventsFollowAlerts | server/src/priceMonitor.ts:44-74 | a failed quote broadcasts nothing; otherwise the repriced row comes first, followed by the stock's own notification (labelled with the snapshot's symbol and name) exactly when one was recorded |
| Monitor.CycleAlertIds | server/src/priceMonitor.ts:30-41 | a cycle's notifications take consecutive ids from the table's next id, all at the cycle's time; in total there are no more of them than snapshot stocks (exactly one per crossing stock is `CycleAlertsPerStock`) |
| Monitor.CycleEventsCount | server/src/priceMonitor.ts:30-41 | in total a cycle broadcasts at least as many events as it records notifications and at most twice as many events as there are snapshot stocks |
| Monitor.CycleAlertsBroadcast | server/src/priceMonitor.ts:53-73 | every notification a cycle records is broadcast by that cycle in an `alarm:triggered` event carrying that very record |
| Monitor.AlertsOverCycles | server/src/priceMonitor.ts:43-83 | a stock polled over n cycles raises at most n alerts |
| Monitor.Polled | server/src/priceMonitor.ts:43-75 | a failed quote leaves the row as it is; otherwise `last_price` becomes the fetched price and `updated_at` the current time; `last_alert_at` is set iff the snapshot row crosses; every other field is unchanged |
| Monitor.CycleAlertsPerStock | server/src/priceMonitor.ts:30-41 | in one cycle each snapshot stock gets exactly one notification when its own quote crosses its own alarm and none otherwise, whatever the other stocks' quotes did |
| Monitor.AlertsOfNewStock | server/src/priceMonitor.ts:30-41 | a stock outside the snapshot gets no notification from the cycle |
| Monitor.CycleAlertsAreCrossings | server/src/priceMonitor.ts:53-63 | every notification of a cycle belongs to a snapshot stock whose quote crossed, with `trigger_price` the fetched price, the message built from the snapshot row, and the cycle's time |
| Monitor.CycleUpdatesEveryQuotedStock | server/src/priceMonitor.ts:30-51 | every snapshot stock whose quote arrived has its repriced row broadcast in the cycle, whatever failed elsewhere |
| Monitor.CycleEventsConcernQuotedStocks | server/src/priceMonitor.ts:30-46 | every event of a cycle is about a snapshot stock whose own quote arrived |
| Monitor.CycleEventsSkipFailedQuotes | server/src/priceMonitor.ts:32-44 | a stock whose quote failed has no event in the cycle |
| Monitor.AlarmFollowsItsUpdate | server/src/priceMonitor.ts:48-74 | every `alarm:triggered` event directly follows the `stock:update` event of the same stock |
| Monitor.AlertsCountTransitions | server/src/priceMonitor.ts:43-83 | over a run of cycles the number of alerts for a stock equals the number of moves onto the alarm side in its price history (last price, then the fetched prices) |
| Monitor.AlertsExample | server/src/priceMonitor.ts:77-83 | alarm 100 `above`, last price 95, quotes 101, 102, 99, 103: exactly two alerts |
| Monitor.PriceMonitor.constructor | server/src/priceMonitor.ts:10-15 | a new monitor has no timer |
| Monitor.PriceMonitor.Stop | server/src/priceMonitor.ts:23-28 | afterwards no timer is set and the cleared interval is no longer armed; with no timer, nothing changes |
| Monitor.PriceMonitor.Start | server/src/priceMonitor.ts:17-21 | stops the earlier timer and leaves exactly one armed interval, a fresh one; runs one cycle over the table sorted by symbol, with every row `Polled` and the records, ids and events of `CycleAlerts` / `CycleEvents` appended |
| Monitor.PriceMonitor.RunCycle | server/src/priceMonitor.ts:30-41 | the snapshot is the table sorted by symbol; every row becomes `Polled`; the records and events appended are `CycleAlerts` and `CycleEvents` of the snapshot |
| Monitor.PriceMonitor.ProcessNext | server/src/priceMonitor.ts:33-39 | processing the next snapshot row extends the cycle's effects by exactly that row's |
| Monitor.PriceMonitor.ProcessStock | server/src/priceMonitor.ts:43-75 | for a row still present: the row becomes `Polled`, one record is appended iff crossed, and the update event (then the alarm event) are broadcast; for a deleted row nothing changes |
| Store.SymbolLess | server/src/db.ts:64 | the `ORDER BY symbol` comparison: never relates a symbol to itself, and a smaller first code point sorts first |
| Store.SymbolLessIrreflexive | server/src/db.ts:64 | no symbol sorts before itself |
| Store.SymbolLessTransitive | server/src/db.ts:64 | the symbol order is transitive |
| Store.SymbolLessTotal | server/src/db.ts:64 | of two distinct symbols one sorts first |
| Store.SymbolLessAsymmetric | server/src/db.ts:64 | two symbols never sort before each other |
| Store.InsertBySymbol | server/src/db.ts:60-66 | inserting a row with a fresh symbol into a symbol-sorted list keeps it sorted and adds exactly that row |
| Store.CascadeDelete | server/src/db.ts:35 | the records kept are exactly those of other stocks |
| Store.CascadeDeleteKeepsOrder | server/src/db.ts:35 | the cascade keeps the records in id and time order |
| Store.Edited | server/src/db.ts:104-132 | only the supplied alarm price and direction change, and `updated_at`; every other field is kept |
| Store.Database.constructor | server/src/db.ts:16-36 | an empty, valid pair of tables |
| Store.Database.FindById | server/src/db.ts:95-102 | the row with that id, absent iff there is none |
| Store.Database.FindBySymbol | server/src/db.ts:69-76 | the row with that symbol, absent iff no row has it |
| Store.Database.List | server/src/db.ts:60-66 | every row exactly once, ascending by symbol |
| Store.Database.Create | server/src/db.ts:78-93 | refused (UNIQUE) iff the symbol is present, with nothing changed; otherwise a fresh id, the given fields, no `last_alert_at`, timestamps now, and no other row changed |
| Store.Database.Update | server/src/db.ts:104-132 | no fields: nothing changes and the row is read back; unknown id: nothing changes and nothing is returned; otherwise only that row changes, as `Edited` |
| Store.Database.UpdateLastPrice | server/src/db.ts:134-138 | only that row changes: `last_price` and `updated_at` |
| Store.Database.UpdateLastAlert | server/src/db.ts:140-144 | only that row's `last_alert_at` changes; `updated_at` is kept |
| Store.Database.Delete | server/src/db.ts:146-148 | exactly that row is removed, with its notifications |
| Store.Database.Record | server/src/db.ts:152-170 | refused (foreign key) iff the stock is absent; otherwise one record with the next id and the current time is appended |
| Store.Database.ListNotifications | server/src/db.ts:172-178 | min(limit, count) records, newest first, with non-increasing `triggered_at`; no omitted record is newer than one returned |
| Notifier.Hub.BroadcastStock | server/src/notifier.ts:26-28 | appends one `stock:update` event with the row |
| Notifier.Hub.BroadcastStocks | server/src/notifier.ts:30-32 | appends one `stock:list` event with the list |
| Notifier.Hub.BroadcastNotification | server/src/notifier.ts:34-38 | appends one `alarm:triggered` event with the record and the stock's symbol and name |
| Routes.TrimStart | server/src/routes/stocks.ts:32 | a suffix of the input, cut only through white space, starting with a non-white-space character |
| Routes.TrimEnd | server/src/routes/stocks.ts:32 | a prefix of the input, cut only through white space, ending with a non-white-space character |
| Routes.Trim | server/src/routes/stocks.ts:32 | a slice of the input with no white space at its ends and only white space cut away |
| Routes.ToUpper | server/src/routes/stocks.ts:32 | same length; each ASCII lower-case letter is upper-cased and every other character is kept |
| Routes.Normalize | server/src/routes/stocks.ts:32 | the stored symbol is trimmed, has no ASCII lower-case letter, and is no longer than the input |
| Routes.NormalizeIdempotent | server/src/routes/stocks.ts:32 | normalising a normalised symbol changes nothing |
| Routes.NormalizedIsFixed | server/src/routes/stocks.ts:32 | a trimmed upper-case string is its own normal form |
| Routes.BlankSymbolAccepted | server/src/routes/stocks.ts:7-11 | a symbol of white space only passes the schema and normalises to the empty string |
| Routes.ParseDirection | server/src/routes/stocks.ts:10 | accepts exactly `above` and `below` |
| Routes.DirectionRoundTrip | server/src/db.ts:22 | the stored direction text parses back to the same direction, and every accepted text is a stored text |
| Routes.ParseCreate | server/src/routes/stocks.ts:7-11 | accepted iff the symbol is non-empty, the alarm price is positive, and the direction is absent or valid; an absent direction defaults to `above` |
| Routes.ParseUpdate | server/src/routes/stocks.ts:13-20 | accepted iff at least one field is given, a given price is positive, and a given direction is valid; the fields are carried over |
| Routes.PollingKeepsWellFormed | server/src/db.ts:134-144 | a polling cycle keeps every symbol normalised and every alarm price positive |
| Routes.StocksRouter.constructor | server/src/routes/stocks.ts:22-23 | the handlers share the given table and hub |
| Routes.StocksRouter.GetStocks | server/src/routes/stocks.ts:25-27 | 200 with every row once, by symbol |
| Routes.StocksRouter.GetRecentNotifications | server/src/routes/stocks.ts:93-95 | 200 with the 50 newest records, newest first |
| Routes.StocksRouter.PostStock | server/src/routes/stocks.ts:29-53 | invalid body: 500 and nothing changes; normalised symbol taken: 409 with no insert and no broadcast; failed quote: 500 and nothing changes; otherwise 201 with the row seeded from the quote, inserted under the next id (which then advances by one) and broadcast; the clock, the notifications and their id counter never change, and the stock id counter changes only on 201; keeps symbols normalised and prices positive |
| Routes.StocksRouter.CreateValidated | server/src/routes/stocks.ts:32-49 | for an accepted body: normalised symbol taken gives 409 with no change; a failed quote gives 500 with no change; otherwise 201 with the row seeded from the quote, inserted under the next id (which then advances by one) and broadcast; the clock, the notifications and their id counter never change, and the stock id counter changes only on 201 |
| Routes.StocksRouter.PatchStock | server/src/routes/stocks.ts:55-79 | invalid body: 500 and nothing changes; unknown id: 404 with no broadcast; otherwise 200 with the `Edited` row, stored and broadcast as it is; the clock, both id counters and the notifications never change; keeps prices positive |
| Routes.StocksRouter.DeleteStock | server/src/routes/stocks.ts:81-91 | unknown id: 404 and nothing changes; otherwise the row and its notifications are removed, the full remaining list is broadcast by symbol, and the answer is 204; the clock and both id counters never change |
| Client.OnStockUpdate | client/src/App.tsx:52-60 | after an update the stock is in the list, the list grew by at most one, it holds nothing but the old entries and the stock, and every entry with another id stays in place |
| Client.FindIndex | client/src/App.tsx:53 | the first position holding the id, or -1 iff none does |
| Client.UpsertPlacement | client/src/App.tsx:52-60 | an entry with the id is replaced where it stands with the length kept and the others untouched; otherwise the stock is appended |
| Client.UpsertKeepsIdsDistinct | client/src/App.tsx:53-59 | the upsert keeps ids distinct and the stock is in the list afterwards |
| Client.UpsertIdempotent | client/src/App.tsx:52-60 | receiving the same update twice equals receiving it once |
| Client.OnStockList | client/src/App.tsx:62-64 | the list becomes the payload, whatever it held |
| Client.OnAlarm | client/src/App.tsx:66 | the new alert is first, the older ones follow in order, and the length is min(old + 1, 50) |
| Client.Arrivals | client/src/App.tsx:66 | after one or more further alerts the list holds min(old + new, 50) entries |
| Client.ArrivalsShift | client/src/App.tsx:66 | after n further alerts an entry at position p is at p + n while that is below 50 |
| Client.HandleCreate | client/src/App.tsx:75-90 | with an empty field or a failed request the list is unchanged; otherwise the server's row is appended with no id check |
| Client.CreateAfterBroadcastDuplicates | client/src/App.tsx:84 | when the creation broadcast arrives before the answer, the new row is listed twice |
| Client.HandleCreateUpsertKeepsIdsDistinct | client/src/App.tsx:75-90 | the corrected create keeps ids distinct, whichever of broadcast and answer arrives first |
| Client.ReplaceById | client/src/App.tsx:98-100 | same length and order; the entries with the id become the server's row and the others stay |
| Client.ReplaceKeepsIdsDistinct | client/src/App.tsx:98-100 | replacing by the row's own id keeps ids distinct |
| Client.RemoveById | client/src/App.tsx:111 | exactly the entries without the id remain |
| Client.RemoveDistributes | client/src/App.tsx:111 | removal commutes with concatenation, so the kept entries keep their relative order |
| Client.RemoveAbsent | client/src/App.tsx:111 | a list without the id is left as it is |
| Client.LatestNotifications | client/src/App.tsx:118-121 | the prefix of length min(5, count) |

## Left out

- Socket transport, subscriptions and connection logging (`attachLogging`): the hub is the trace of emitted events.
- The quote service's network call: it is the parameter `fetch`. A missing or non-numeric price is `QuoteFailure`. The name fallback chain (`shortName`, then `longName`, then the symbol) is folded into the answer's `shortName`.
- Process wiring, environment parsing, and the health endpoint (`server/src/index.ts`, `server/src/config.ts`).
- Concurrency:
  - The tasks of a cycle run one after the other in snapshot order, all at one clock value.
  - Overlapping cycles, and edits that interleave with a cycle's awaits, are not modelled. `ProcessStock` does take the row's current value, so a row deleted since the snapshot is handled.
  - `Start` runs its first cycle to completion before arming the interval. The source starts that cycle without awaiting it.
- Timer timing: only which intervals are armed is modelled, not when they fire.
- Monitor.PriceMonitor.RunCycle: does not model a failing snapshot read, which the source leaves as an unhandled rejection.
- Monitor.PriceMonitor.ProcessStock: store writes never fail in the model. In the source a throw from `updateLastPrice`, `findById`, `record` or `updateLastAlert` (server/src/db.ts:134-170) is caught per stock (server/src/priceMonitor.ts:34-38) and can leave partial effects, such as a stored record with no `last_alert_at` and no alarm broadcast. The failure isolation the model proves (`CycleAlertsPerStock`, `CycleUpdatesEveryQuotedStock`) covers quote failures only.
- Store.Database.Record: the foreign-key refusal assumes enforcement is on. In `ProcessStock` the row has just been read, so the refusal cannot happen in the sequential model.
- Routes.StocksRouter.PostStock: a duplicate insert racing between the 409 check and the insert (which would answer 500) cannot happen in the sequential model.
- Message text: the alert message is kept as its four inputs (symbol, direction, alarm price, price). The two-decimal formatting and the literal phrases are not modelled. The error-body messages of 404/409/500 are not modelled either.
- Numbers are `real`:
  - Floating-point rounding is left out.
  - zod's coercion of strings to numbers is left out; a field is given or absent.
  - `Number(req.params.id)` is an `int`, and NaN ids are left out.
  - The notification limit is a `nat`, and SQLite's negative `LIMIT` (no limit) is left out.
- Routes.ToUpper: only ASCII letters are upper-cased. The full Unicode case mapping of `toUpperCase`, which can change the length, is not modelled.
- Routes.IsWhitespace: covers the ASCII, Latin-1 and Unicode space separators and line terminators that `trim` strips.
- Timestamps are a `nat` clock that the environment advances with `Tick`. Records with the same `triggered_at` come newest-insert first, one of the orders SQL allows.
- Symbol order:
  - `ORDER BY symbol` uses SQLite's binary collation, which is code-point order for UTF-8. `SymbolLess` compares code points.
  - Scans go through ids in rowid order, so `FindBySymbol` returns the row that holds the symbol.
- React rendering, form state, `confirm`, and the initial fetch of the lists are not modelled.

## Findings

| source | as written | input that shows it | evidently intended | confidence | as-written member | corrected member |
|---|---|---|---|---|---|---|
| client/src/App.tsx:84 | `handleCreate` appends the created row without looking for its id | a list without id n. The server broadcasts `stock:update` for n (server/src/routes/stocks.ts:47) before it answers the POST. The creating client upserts the row from the socket, then appends it from the answer | the row appears once, as the upsert of the socket listener would leave it | medium: depends on the socket event arriving before the HTTP answer; not executed | Client.CreateAfterBroadcastDuplicates | Client.HandleCreateUpsertKeepsIdsDistinct |
