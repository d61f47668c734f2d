/**
 * The socket hub, reduced to the trace of events it has emitted. Delivery to
 * subscribers is fire-and-forget, so the trace is what every observer connected
 * since the start would have seen.
 */
module Notifier {
  import opened Types

  class Hub {
    var events: seq<Event>

    constructor ()
      ensures events == []
    {
      events := [];
    }

    /** `broadcastStock`: a `stock:update` event. */
    method BroadcastStock(stock: StockRecord)
      modifies this
      ensures events == old(events) + [StockUpdate(stock)]
    {
      events := events + [StockUpdate(stock)];
    }

    /** `broadcastStocks`: a `stock:list` event. */
    method BroadcastStocks(stocks: seq<StockRecord>)
      modifies this
      ensures events == old(events) + [StockList(stocks)]
    {
      events := events + [StockList(stocks)];
    }

    /** `broadcastNotification`: an `alarm:triggered` event carrying the record and the stock's label. */
    method BroadcastNotification(record: NotificationRecord, stockLabel: StockLabel)
      modifies this
      ensures events == old(events) + [AlarmTriggered(NotificationItem(record, Some(stockLabel)))]
    {
      events := events + [AlarmTriggered(NotificationItem(record, Some(stockLabel)))];
    }
  }
}
