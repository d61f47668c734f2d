/** Records shared by the server tables, the socket events and the client lists. */
module Types {

  datatype Option<+T> = None | Some(value: T)

  datatype Result<+T, +E> = Success(value: T) | Failure(error: E)

  /** The `alarm_direction` column: the database CHECK constraint admits only these two. */
  datatype Direction = Above | Below

  /** A value of the database clock (`CURRENT_TIMESTAMP`), treated as an opaque monotone counter. */
  type Timestamp = nat

  /** Alert text, kept as the four values the message template is filled with. */
  datatype Message = AlertText(symbol: string, direction: Direction, alarmPrice: real, price: real)

  /** A row of the `stocks` table (also the client's `Stock`). */
  datatype StockRecord = StockRecord(
    id: int,
    symbol: string,
    displayName: string,
    alarmPrice: real,
    alarmDirection: Direction,
    lastPrice: Option<real>,
    lastAlertAt: Option<Timestamp>,
    createdAt: Timestamp,
    updatedAt: Timestamp)

  /** A row of the `notifications` table. */
  datatype NotificationRecord = NotificationRecord(
    id: int,
    stockId: int,
    message: Message,
    triggerPrice: real,
    triggeredAt: Timestamp)

  /** The symbol and display name copied onto an alert at the time it fires. */
  datatype StockLabel = StockLabel(symbol: string, displayName: string)

  /** The client's `NotificationItem`: a record, with the label when it came over the socket. */
  datatype NotificationItem = NotificationItem(record: NotificationRecord, stock: Option<StockLabel>)

  /** The three socket events the server broadcasts. */
  datatype Event =
    | StockUpdate(stock: StockRecord)
    | StockList(stocks: seq<StockRecord>)
    | AlarmTriggered(item: NotificationItem)

  /** No two entries of a list of rows share an id. */
  predicate DistinctIds(rows: seq<StockRecord>)
  {
    forall j, k :: 0 <= j < k < |rows| ==> rows[j].id != rows[k].id
  }

  /** What the quote source answers for one symbol. */
  datatype QuoteResult =
    | QuoteFailure
    | Quote(symbol: string, shortName: string, price: real)
}
