/**
 * The polling engine: a cycle snapshots the table, fetches a quote per stock,
 * writes the price, broadcasts the row and, on a crossing, records and
 * broadcasts an alert. The cycle's tasks run here one after the other in
 * snapshot order; they touch disjoint rows, so each stock's outcome is the one
 * it would have on its own.
 */
module Monitor {
  import opened Types
  import opened Crossing
  import opened Store
  import opened Notifier

  /** The row as `updateLastPrice` leaves it. */
  function Repriced(row: StockRecord, price: real, now: Timestamp): StockRecord
  {
    row.(lastPrice := Some(price), updatedAt := now)
  }

  /** The alert text of `processStock`, built from the snapshot row and the fresh price. */
  function AlertMessage(stock: StockRecord, price: real): Message
  {
    AlertText(stock.symbol, stock.alarmDirection, stock.alarmPrice, price)
  }

  /** Whether the quote for `stock` brings a fresh price that crosses its alarm. */
  predicate Crosses(stock: StockRecord, quote: QuoteResult)
  {
    quote.Quote? && HasCrossed(stock, quote.price)
  }

  /**
   * The row of `stock` after `processStock`, given its value `current` when the task
   * runs: the crossing is judged on the snapshot `stock`, the writes go to `current`.
   */
  function Polled(current: StockRecord, stock: StockRecord, quote: QuoteResult, now: Timestamp): (r: StockRecord)
    ensures quote.QuoteFailure? ==> r == current
    ensures quote.Quote? ==> r.lastPrice == Some(quote.price) && r.updatedAt == now
    ensures r.lastAlertAt == if Crosses(stock, quote) then Some(now) else current.lastAlertAt
    ensures r.(lastPrice := current.lastPrice, updatedAt := current.updatedAt, lastAlertAt := current.lastAlertAt) == current
  {
    match quote
    case QuoteFailure => current
    case Quote(_, _, price) =>
      var written := Repriced(current, price, now);
      if HasCrossed(stock, price) then written.(lastAlertAt := Some(now)) else written
  }

  /** The notification `processStock` records, if any; `nextId` is the id the table hands out next. */
  function StockAlerts(stock: StockRecord, quote: QuoteResult, nextId: int, now: Timestamp): (r: seq<NotificationRecord>)
  {
    if Crosses(stock, quote) then
      [NotificationRecord(nextId, stock.id, AlertMessage(stock, quote.price), quote.price, now)]
    else []
  }

  /** The events `processStock` broadcasts: the re-read row, then the alert with the snapshot's label. */
  function StockEvents(current: StockRecord, stock: StockRecord, quote: QuoteResult, nextId: int, now: Timestamp): (r: seq<Event>)
  {
    match quote
    case QuoteFailure => []
    case Quote(_, _, price) =>
      [StockUpdate(Repriced(current, price, now))]
      + (if HasCrossed(stock, price) then
           [AlarmTriggered(NotificationItem(
              NotificationRecord(nextId, stock.id, AlertMessage(stock, price), price, now),
              Some(StockLabel(stock.symbol, stock.displayName))))]
         else [])
  }

  /** Notifications recorded by a cycle over `snapshot`, stock after stock. */
  function CycleAlerts(snapshot: seq<StockRecord>, fetch: string -> QuoteResult, firstId: int, now: Timestamp): (r: seq<NotificationRecord>)
  {
    if snapshot == [] then []
    else
      var earlier := CycleAlerts(snapshot[..|snapshot| - 1], fetch, firstId, now);
      var stock := snapshot[|snapshot| - 1];
      earlier + StockAlerts(stock, fetch(stock.symbol), firstId + |earlier|, now)
  }

  /** Events broadcast by a cycle over `snapshot`, stock after stock. */
  function CycleEvents(snapshot: seq<StockRecord>, fetch: string -> QuoteResult, firstId: int, now: Timestamp): (r: seq<Event>)
  {
    if snapshot == [] then []
    else
      var prefix := snapshot[..|snapshot| - 1];
      var stock := snapshot[|snapshot| - 1];
      CycleEvents(prefix, fetch, firstId, now)
      + StockEvents(stock, stock, fetch(stock.symbol), firstId + |CycleAlerts(prefix, fetch, firstId, now)|, now)
  }

  /**
   * A stock's own task records one notification exactly when its quote crosses,
   * with the next id, the fetched price, the message of the snapshot row and the cycle's time.
   */
  lemma StockAlertsOfCrossing(stock: StockRecord, quote: QuoteResult, nextId: int, now: Timestamp)
    ensures |StockAlerts(stock, quote, nextId, now)| == if Crosses(stock, quote) then 1 else 0
    ensures Crosses(stock, quote) ==>
      StockAlerts(stock, quote, nextId, now)[0]
        == NotificationRecord(nextId, stock.id, AlertMessage(stock, quote.price), quote.price, now)
  {
  }

  /**
   * A stock's own task broadcasts nothing when its quote fails; otherwise first the
   * repriced row, then, exactly when it recorded a notification, that notification
   * labelled with the snapshot's symbol and name.
   */
  lemma StockEventsFollowAlerts(current: StockRecord, stock: StockRecord, quote: QuoteResult, nextId: int, now: Timestamp)
    ensures var events := StockEvents(current, stock, quote, nextId, now);
      var alerts := StockAlerts(stock, quote, nextId, now);
      && |events| == (if quote.Quote? then 1 else 0) + |alerts|
      && (quote.Quote? ==> events[0] == StockUpdate(Repriced(current, quote.price, now)))
      && (|alerts| == 1 ==>
            events[1] == AlarmTriggered(NotificationItem(alerts[0], Some(StockLabel(stock.symbol, stock.displayName)))))
  {
  }

  /** A cycle's notifications take consecutive ids from `firstId`, all at the cycle's time, at most one per stock. */
  lemma {:induction false} CycleAlertIds(snapshot: seq<StockRecord>, fetch: string -> QuoteResult, firstId: int, now: Timestamp)
    ensures var alerts := CycleAlerts(snapshot, fetch, firstId, now);
      && |alerts| <= |snapshot|
      && forall k :: 0 <= k < |alerts| ==> alerts[k].id == firstId + k && alerts[k].triggeredAt == now
  {
    if snapshot != [] {
      var prefix := snapshot[..|snapshot| - 1];
      var stock := snapshot[|snapshot| - 1];
      CycleAlertIds(prefix, fetch, firstId, now);
      var earlier := CycleAlerts(prefix, fetch, firstId, now);
      StockAlertsOfCrossing(stock, fetch(stock.symbol), firstId + |earlier|, now);
    }
  }

  /** Every notification of a cycle has its broadcast, and a cycle broadcasts at most two events per stock. */
  lemma {:induction false} CycleEventsCount(snapshot: seq<StockRecord>, fetch: string -> QuoteResult, firstId: int, now: Timestamp)
    ensures |CycleAlerts(snapshot, fetch, firstId, now)| <= |CycleEvents(snapshot, fetch, firstId, now)| <= 2 * |snapshot|
  {
    if snapshot != [] {
      var prefix := snapshot[..|snapshot| - 1];
      var stock := snapshot[|snapshot| - 1];
      CycleEventsCount(prefix, fetch, firstId, now);
      var earlier := CycleAlerts(prefix, fetch, firstId, now);
      StockEventsFollowAlerts(stock, stock, fetch(stock.symbol), firstId + |earlier|, now);
      StockAlertsOfCrossing(stock, fetch(stock.symbol), firstId + |earlier|, now);
    }
  }

  /** Every notification a cycle records is broadcast by that cycle as its own `alarm:triggered` event. */
  lemma {:induction false} CycleAlertsBroadcast(snapshot: seq<StockRecord>, fetch: string -> QuoteResult, firstId: int, now: Timestamp)
    ensures forall n :: n in CycleAlerts(snapshot, fetch, firstId, now) ==>
      exists e :: e in CycleEvents(snapshot, fetch, firstId, now) && e.AlarmTriggered? && e.item.record == n
  {
    if snapshot != [] {
      var prefix := snapshot[..|snapshot| - 1];
      var stock := snapshot[|snapshot| - 1];
      CycleAlertsBroadcast(prefix, fetch, firstId, now);
      var nextId := firstId + |CycleAlerts(prefix, fetch, firstId, now)|;
      var mine := StockAlerts(stock, fetch(stock.symbol), nextId, now);
      var events := StockEvents(stock, stock, fetch(stock.symbol), nextId, now);
      StockAlertsOfCrossing(stock, fetch(stock.symbol), nextId, now);
      StockEventsFollowAlerts(stock, stock, fetch(stock.symbol), nextId, now);
      forall n | n in mine
        ensures exists e :: e in events && e.AlarmTriggered? && e.item.record == n
      {
        assert events[1] in events;
      }
    }
  }

  /** How many of `alerts` belong to stock `id`. */
  function AlertCountFor(alerts: seq<NotificationRecord>, id: int): nat
  {
    if alerts == [] then 0
    else AlertCountFor(alerts[..|alerts| - 1], id) + (if alerts[|alerts| - 1].stockId == id then 1 else 0)
  }

  lemma {:induction false} AlertCountForAppend(a: seq<NotificationRecord>, b: seq<NotificationRecord>, id: int)
    ensures AlertCountFor(a + b, id) == AlertCountFor(a, id) + AlertCountFor(b, id)
  {
    if b != [] {
      assert (a + b)[..|a + b| - 1] == a + b[..|b| - 1];
      assert (a + b)[|a + b| - 1] == b[|b| - 1];
      AlertCountForAppend(a, b[..|b| - 1], id);
    } else {
      assert a + b == a;
    }
  }

  /**
   * Per-stock isolation of alerts: in one cycle each stock gets exactly one
   * notification when its own quote crosses its own alarm, and none otherwise,
   * whatever the other stocks' quotes did.
   */
  lemma {:induction false} CycleAlertsPerStock(snapshot: seq<StockRecord>, fetch: string -> QuoteResult, firstId: int, now: Timestamp)
    requires DistinctIds(snapshot)
    ensures forall j :: 0 <= j < |snapshot| ==>
      AlertCountFor(CycleAlerts(snapshot, fetch, firstId, now), snapshot[j].id)
        == if Crosses(snapshot[j], fetch(snapshot[j].symbol)) then 1 else 0
  {
    if snapshot != [] {
      var prefix := snapshot[..|snapshot| - 1];
      var stock := snapshot[|snapshot| - 1];
      CycleAlertsPerStock(prefix, fetch, firstId, now);
      var earlier := CycleAlerts(prefix, fetch, firstId, now);
      var mine := StockAlerts(stock, fetch(stock.symbol), firstId + |earlier|, now);
      forall j | 0 <= j < |snapshot|
        ensures AlertCountFor(CycleAlerts(snapshot, fetch, firstId, now), snapshot[j].id)
          == if Crosses(snapshot[j], fetch(snapshot[j].symbol)) then 1 else 0
      {
        AlertCountForAppend(earlier, mine, snapshot[j].id);
        AlertCountForAppend([], mine, snapshot[j].id);
        assert [] + mine == mine;
        if j < |snapshot| - 1 {
          assert prefix[j] == snapshot[j];
        } else {
          AlertsOfNewStock(prefix, fetch, firstId, now, stock.id);
        }
      }
    }
  }

  /** A stock that is not in the snapshot gets no notification from the cycle. */
  lemma {:induction false} AlertsOfNewStock(snapshot: seq<StockRecord>, fetch: string -> QuoteResult, firstId: int, now: Timestamp, id: int)
    requires forall j :: 0 <= j < |snapshot| ==> snapshot[j].id != id
    ensures AlertCountFor(CycleAlerts(snapshot, fetch, firstId, now), id) == 0
  {
    if snapshot != [] {
      var prefix := snapshot[..|snapshot| - 1];
      var stock := snapshot[|snapshot| - 1];
      AlertsOfNewStock(prefix, fetch, firstId, now, id);
      var earlier := CycleAlerts(prefix, fetch, firstId, now);
      AlertCountForAppend(earlier, StockAlerts(stock, fetch(stock.symbol), firstId + |earlier|, now), id);
    }
  }

  /** Every notification of a cycle carries the fresh price of a snapshot stock whose quote crossed. */
  lemma {:induction false} CycleAlertsAreCrossings(snapshot: seq<StockRecord>, fetch: string -> QuoteResult, firstId: int, now: Timestamp)
    ensures forall n :: n in CycleAlerts(snapshot, fetch, firstId, now) ==>
      exists j ::
        && 0 <= j < |snapshot| && snapshot[j].id == n.stockId
        && Crosses(snapshot[j], fetch(snapshot[j].symbol))
        && n.triggerPrice == fetch(snapshot[j].symbol).price
        && n.message == AlertMessage(snapshot[j], n.triggerPrice)
        && n.triggeredAt == now
  {
    if snapshot != [] {
      var prefix := snapshot[..|snapshot| - 1];
      CycleAlertsAreCrossings(prefix, fetch, firstId, now);
      forall n | n in CycleAlerts(snapshot, fetch, firstId, now)
        ensures exists j ::
          && 0 <= j < |snapshot| && snapshot[j].id == n.stockId
          && Crosses(snapshot[j], fetch(snapshot[j].symbol))
          && n.triggerPrice == fetch(snapshot[j].symbol).price
          && n.message == AlertMessage(snapshot[j], n.triggerPrice)
          && n.triggeredAt == now
      {
        if n in CycleAlerts(prefix, fetch, firstId, now) {
          var j :| 0 <= j < |prefix| && prefix[j].id == n.stockId
            && Crosses(prefix[j], fetch(prefix[j].symbol))
            && n.triggerPrice == fetch(prefix[j].symbol).price
            && n.message == AlertMessage(prefix[j], n.triggerPrice)
            && n.triggeredAt == now;
          assert snapshot[j] == prefix[j];
        } else {
          assert snapshot[|snapshot| - 1].id == n.stockId;
        }
      }
    }
  }

  /**
   * Failure isolation of broadcasts: every stock whose own quote arrived has its
   * repriced row broadcast in the cycle, whatever happened to the others.
   */
  lemma {:induction false} CycleUpdatesEveryQuotedStock(snapshot: seq<StockRecord>, fetch: string -> QuoteResult, firstId: int, now: Timestamp)
    ensures forall j :: 0 <= j < |snapshot| && fetch(snapshot[j].symbol).Quote? ==>
      StockUpdate(Repriced(snapshot[j], fetch(snapshot[j].symbol).price, now)) in CycleEvents(snapshot, fetch, firstId, now)
  {
    if snapshot != [] {
      var prefix := snapshot[..|snapshot| - 1];
      CycleUpdatesEveryQuotedStock(prefix, fetch, firstId, now);
      forall j | 0 <= j < |snapshot| && fetch(snapshot[j].symbol).Quote?
        ensures StockUpdate(Repriced(snapshot[j], fetch(snapshot[j].symbol).price, now)) in CycleEvents(snapshot, fetch, firstId, now)
      {
        if j < |prefix| {
          assert prefix[j] == snapshot[j];
        }
      }
    }
  }

  /** The stock an event is about, when it is about one stock. */
  function EventStockId(e: Event): Option<int>
  {
    match e
    case StockUpdate(s) => Some(s.id)
    case StockList(_) => None
    case AlarmTriggered(item) => Some(item.record.stockId)
  }

  /** Every event of a cycle is about a snapshot stock whose quote arrived. */
  lemma {:induction false} CycleEventsConcernQuotedStocks(snapshot: seq<StockRecord>, fetch: string -> QuoteResult, firstId: int, now: Timestamp)
    ensures forall e :: e in CycleEvents(snapshot, fetch, firstId, now) ==>
      exists j :: 0 <= j < |snapshot| && EventStockId(e) == Some(snapshot[j].id) && fetch(snapshot[j].symbol).Quote?
  {
    if snapshot != [] {
      var prefix := snapshot[..|snapshot| - 1];
      CycleEventsConcernQuotedStocks(prefix, fetch, firstId, now);
      forall e | e in CycleEvents(snapshot, fetch, firstId, now)
        ensures exists j :: 0 <= j < |snapshot| && EventStockId(e) == Some(snapshot[j].id) && fetch(snapshot[j].symbol).Quote?
      {
        if e in CycleEvents(prefix, fetch, firstId, now) {
          var j :| 0 <= j < |prefix| && EventStockId(e) == Some(prefix[j].id) && fetch(prefix[j].symbol).Quote?;
          assert prefix[j] == snapshot[j];
        } else {
          assert EventStockId(e) == Some(snapshot[|snapshot| - 1].id);
        }
      }
    }
  }

  /** So a stock whose quote failed is absent from the cycle's events. */
  lemma CycleEventsSkipFailedQuotes(snapshot: seq<StockRecord>, fetch: string -> QuoteResult, firstId: int, now: Timestamp, j: int)
    requires DistinctIds(snapshot)
    requires 0 <= j < |snapshot| && fetch(snapshot[j].symbol).QuoteFailure?
    ensures forall e :: e in CycleEvents(snapshot, fetch, firstId, now) ==> EventStockId(e) != Some(snapshot[j].id)
  {
    CycleEventsConcernQuotedStocks(snapshot, fetch, firstId, now);
  }

  /** Every alarm event comes right after the update event of the same stock. */
  predicate AlarmsFollowUpdates(events: seq<Event>)
  {
    forall k :: 0 <= k < |events| && events[k].AlarmTriggered? ==>
      0 < k && events[k - 1].StockUpdate? && events[k - 1].stock.id == events[k].item.record.stockId
  }

  /** Within a cycle an alarm event always comes right after the update event of the same stock. */
  lemma {:induction false} AlarmFollowsItsUpdate(snapshot: seq<StockRecord>, fetch: string -> QuoteResult, firstId: int, now: Timestamp)
    ensures AlarmsFollowUpdates(CycleEvents(snapshot, fetch, firstId, now))
  {
    if snapshot != [] {
      var prefix := snapshot[..|snapshot| - 1];
      var stock := snapshot[|snapshot| - 1];
      AlarmFollowsItsUpdate(prefix, fetch, firstId, now);
      var earlier := CycleEvents(prefix, fetch, firstId, now);
      var mine := StockEvents(stock, stock, fetch(stock.symbol), firstId + |CycleAlerts(prefix, fetch, firstId, now)|, now);
      var events := CycleEvents(snapshot, fetch, firstId, now);
      assert events == earlier + mine;
      forall k | 0 <= k < |events| && events[k].AlarmTriggered?
        ensures 0 < k && events[k - 1].StockUpdate? && events[k - 1].stock.id == events[k].item.record.stockId
      {
        if k < |earlier| {
          assert events[k] == earlier[k];
          assert events[k - 1] == earlier[k - 1];
        } else {
          assert events[k] == mine[k - |earlier|];
          assert events[k - 1] == mine[0];
        }
      }
    }
  }

  /** One more stock processed: a log holding the cycle's records grows by that stock's own. */
  lemma AlertLogStep(snapshot: seq<StockRecord>, i: int, fetch: string -> QuoteResult, firstId: int, now: Timestamp,
                     base: seq<NotificationRecord>, log: seq<NotificationRecord>, nextId: int, log': seq<NotificationRecord>)
    requires 0 <= i < |snapshot|
    requires log == base + CycleAlerts(snapshot[..i], fetch, firstId, now)
    requires nextId == firstId + |CycleAlerts(snapshot[..i], fetch, firstId, now)|
    requires log' == log + StockAlerts(snapshot[i], fetch(snapshot[i].symbol), nextId, now)
    ensures log' == base + CycleAlerts(snapshot[..i + 1], fetch, firstId, now)
    ensures nextId + |StockAlerts(snapshot[i], fetch(snapshot[i].symbol), nextId, now)|
            == firstId + |CycleAlerts(snapshot[..i + 1], fetch, firstId, now)|
  {
    assert snapshot[..i + 1][..i] == snapshot[..i];
  }

  /** One more stock processed: a log holding the cycle's events grows by that stock's own. */
  lemma EventLogStep(snapshot: seq<StockRecord>, i: int, fetch: string -> QuoteResult, firstId: int, now: Timestamp,
                     base: seq<Event>, log: seq<Event>, nextId: int, log': seq<Event>)
    requires 0 <= i < |snapshot|
    requires log == base + CycleEvents(snapshot[..i], fetch, firstId, now)
    requires nextId == firstId + |CycleAlerts(snapshot[..i], fetch, firstId, now)|
    requires log' == log + StockEvents(snapshot[i], snapshot[i], fetch(snapshot[i].symbol), nextId, now)
    ensures log' == base + CycleEvents(snapshot[..i + 1], fetch, firstId, now)
  {
    var earlier := CycleEvents(snapshot[..i], fetch, firstId, now);
    var mine := StockEvents(snapshot[i], snapshot[i], fetch(snapshot[i].symbol), nextId, now);
    CycleEventsSnoc(snapshot, i, fetch, firstId, now);
    LogGrows(base, earlier, mine, log, log', CycleEvents(snapshot[..i + 1], fetch, firstId, now));
  }

  /** The events of the first `i + 1` stocks are those of the first `i`, then stock `i`'s own. */
  lemma CycleEventsSnoc(snapshot: seq<StockRecord>, i: int, fetch: string -> QuoteResult, firstId: int, now: Timestamp)
    requires 0 <= i < |snapshot|
    ensures CycleEvents(snapshot[..i + 1], fetch, firstId, now)
      == CycleEvents(snapshot[..i], fetch, firstId, now)
         + StockEvents(snapshot[i], snapshot[i], fetch(snapshot[i].symbol),
                       firstId + |CycleAlerts(snapshot[..i], fetch, firstId, now)|, now)
  {
    var prefix := snapshot[..i + 1];
    assert prefix[..|prefix| - 1] == snapshot[..i];
    assert prefix[|prefix| - 1] == snapshot[i];
  }

  /** A log holding `base + earlier` that grows by `mine` holds `base + whole` when `whole` is `earlier + mine`. */
  lemma LogGrows<T>(base: seq<T>, earlier: seq<T>, mine: seq<T>, log: seq<T>, log': seq<T>, whole: seq<T>)
    requires log == base + earlier && log' == log + mine && whole == earlier + mine
    ensures log' == base + whole
  {
  }

  /**
   * Alerts raised for one stock whose quote is `prices[i]` in its i-th cycle:
   * each cycle compares against the price the previous cycle wrote.
   */
  function AlertsOverCycles(row: StockRecord, prices: seq<real>, now: Timestamp): (n: nat)
    ensures n <= |prices|
    decreases |prices|
  {
    if prices == [] then 0
    else
      var quote := Quote(row.symbol, row.displayName, prices[0]);
      |StockAlerts(row, quote, 0, now)| + AlertsOverCycles(Polled(row, row, quote, now), prices[1..], now)
  }

  /** The prices a row has already seen: its `last_price`, if any. */
  function Seen(lastPrice: Option<real>): seq<real>
  {
    if lastPrice.Some? then [lastPrice.value] else []
  }

  lemma {:induction false} TransitionsCons(p: real, prices: seq<real>, alarmPrice: real, direction: Direction)
    requires prices != []
    ensures Transitions([p] + prices, alarmPrice, direction)
      == (if !OnAlarmSide(p, alarmPrice, direction) && OnAlarmSide(prices[0], alarmPrice, direction) then 1 else 0)
         + Transitions(prices, alarmPrice, direction)
  {
    if |prices| >= 2 {
      assert ([p] + prices)[..|[p] + prices| - 1] == [p] + prices[..|prices| - 1];
      TransitionsCons(p, prices[..|prices| - 1], alarmPrice, direction);
    }
  }

  /**
   * The number of alerts a stock raises over successive cycles equals the number
   * of moves onto the alarm side in the series of prices it has seen: one per
   * crossing, none while it stays on a side, a new one after each return.
   */
  lemma {:induction false} AlertsCountTransitions(row: StockRecord, prices: seq<real>, now: Timestamp)
    ensures AlertsOverCycles(row, prices, now)
      == Transitions(Seen(row.lastPrice) + prices, row.alarmPrice, row.alarmDirection)
    decreases |prices|
  {
    if prices != [] {
      var quote := Quote(row.symbol, row.displayName, prices[0]);
      var next := Polled(row, row, quote, now);
      assert next.lastPrice == Some(prices[0]);
      assert next.alarmPrice == row.alarmPrice && next.alarmDirection == row.alarmDirection;
      assert |StockAlerts(row, quote, 0, now)| == if HasCrossed(row, prices[0]) then 1 else 0;
      AlertsCountTransitions(next, prices[1..], now);
      FirstTransition(row, prices);
    }
  }

  /** Peeling the first new price off the history: it adds one exactly when `hasCrossed` holds for it. */
  lemma FirstTransition(row: StockRecord, prices: seq<real>)
    requires prices != []
    ensures Transitions(Seen(row.lastPrice) + prices, row.alarmPrice, row.alarmDirection)
      == (if HasCrossed(row, prices[0]) then 1 else 0)
         + Transitions(Seen(Some(prices[0])) + prices[1..], row.alarmPrice, row.alarmDirection)
  {
    assert Seen(Some(prices[0])) + prices[1..] == prices;
    if row.lastPrice.Some? {
      TransitionsCons(row.lastPrice.value, prices, row.alarmPrice, row.alarmDirection);
    } else {
      assert Seen(row.lastPrice) + prices == prices;
      if |prices| >= 2 {
        TransitionsCons(prices[0], prices[1..], row.alarmPrice, row.alarmDirection);
        assert [prices[0]] + prices[1..] == prices;
      }
    }
  }

  /** The worked example: alarm 100 above, last price 95; quotes 101, 102, 99, 103 raise two alerts. */
  lemma AlertsExample(row: StockRecord, now: Timestamp)
    requires row.alarmPrice == 100.0 && row.alarmDirection == Above && row.lastPrice == Some(95.0)
    ensures AlertsOverCycles(row, [101.0, 102.0, 99.0, 103.0], now) == 2
  {
  }

  type TimerHandle = nat

  /** What a cycle starts from: its snapshot and the tables and event log before the first row. */
  datatype CycleStart = CycleStart(
    snapshot: seq<StockRecord>,
    stocks: map<int, StockRecord>,
    notifications: seq<NotificationRecord>,
    events: seq<Event>,
    firstId: int,
    clock: Timestamp,
    nextStockId: int)

  class PriceMonitor {
    const db: Database
    const hub: Hub
    const intervalMs: int
    /** The handle of the repeating timer, when one is set. */
    var timer: Option<TimerHandle>
    /** Intervals this monitor has set and not cleared (the runtime's view). */
    var armed: set<TimerHandle>
    var timersCreated: nat

    /** Only the interval in `timer` is live. */
    ghost predicate Valid()
      reads this, db
    {
      && db.Valid()
      && armed == (if timer.Some? then {timer.value} else {})
      && (forall h :: h in armed ==> h < timersCreated)
    }

    constructor (db: Database, hub: Hub, intervalMs: int)
      requires db.Valid()
      ensures Valid()
      ensures this.db == db && this.hub == hub && this.intervalMs == intervalMs
      ensures timer == None && armed == {}
    {
      this.db := db;
      this.hub := hub;
      this.intervalMs := intervalMs;
      timer := None;
      armed := {};
      timersCreated := 0;
    }

    /** `stop`: clears the interval if one is set; a second call changes nothing. */
    method Stop()
      modifies this`timer, this`armed
      ensures timer == None
      ensures armed == if old(timer).Some? then old(armed) - {old(timer).value} else old(armed)
      ensures old(timer).None? ==> armed == old(armed)
    {
      if timer.Some? {
        armed := armed - {timer.value};
        timer := None;
      }
    }

    /** `start`: stops any earlier timer, runs a cycle, and sets a fresh repeating timer. */
    method Start(fetch: string -> QuoteResult) returns (ghost snapshot: seq<StockRecord>)
      requires Valid()
      modifies this`timer, this`armed, this`timersCreated, db, hub
      ensures Valid()
      ensures timer == Some(old(timersCreated)) && armed == {timer.value}
      ensures timersCreated == old(timersCreated) + 1
      ensures db.clock == old(db.clock) && db.nextStockId == old(db.nextStockId)
      ensures SortedBySymbol(snapshot)
      ensures forall r :: r in snapshot <==> r.id in old(db.stocks) && old(db.stocks)[r.id] == r
      ensures db.stocks.Keys == old(db.stocks).Keys
      ensures forall id :: id in old(db.stocks) ==>
        db.stocks[id] == Polled(old(db.stocks)[id], old(db.stocks)[id], fetch(old(db.stocks)[id].symbol), db.clock)
      ensures db.notifications == old(db.notifications) + CycleAlerts(snapshot, fetch, old(db.nextNotificationId), db.clock)
      ensures db.nextNotificationId == old(db.nextNotificationId) + |CycleAlerts(snapshot, fetch, old(db.nextNotificationId), db.clock)|
      ensures hub.events == old(hub.events) + CycleEvents(snapshot, fetch, old(db.nextNotificationId), db.clock)
    {
      Stop();
      snapshot := RunCycle(fetch);
      timer := Some(timersCreated);
      armed := armed + {timersCreated};
      timersCreated := timersCreated + 1;
    }

    /**
     * `runCycle`: processes every stock of the snapshot; a stock whose quote fails
     * is skipped (its error is caught) and the rest are processed all the same.
     */
    method RunCycle(fetch: string -> QuoteResult) returns (ghost snapshot: seq<StockRecord>)
      requires db.Valid()
      modifies db, hub
      ensures db.Valid()
      ensures db.clock == old(db.clock) && db.nextStockId == old(db.nextStockId)
      ensures SortedBySymbol(snapshot)
      ensures forall r :: r in snapshot <==> r.id in old(db.stocks) && old(db.stocks)[r.id] == r
      ensures db.stocks.Keys == old(db.stocks).Keys
      ensures forall id :: id in old(db.stocks) ==>
        db.stocks[id] == Polled(old(db.stocks)[id], old(db.stocks)[id], fetch(old(db.stocks)[id].symbol), db.clock)
      ensures db.notifications == old(db.notifications) + CycleAlerts(snapshot, fetch, old(db.nextNotificationId), db.clock)
      ensures db.nextNotificationId == old(db.nextNotificationId) + |CycleAlerts(snapshot, fetch, old(db.nextNotificationId), db.clock)|
      ensures hub.events == old(hub.events) + CycleEvents(snapshot, fetch, old(db.nextNotificationId), db.clock)
    {
      var stocks := db.List();
      snapshot := stocks;
      SnapshotIdsDistinct(stocks, db.stocks);
      var cycle := CycleStart(stocks, db.stocks, db.notifications, hub.events, db.nextNotificationId, db.clock, db.nextStockId);
      assert stocks[..0] == [];
      var i := 0;
      while i < |stocks|
        invariant 0 <= i <= |stocks|
        invariant CycleProgress(cycle, fetch, i)
      {
        ProcessNext(cycle, fetch, i);
        i := i + 1;
      }
      assert stocks[..i] == stocks;
      forall id | id in old(db.stocks)
        ensures db.stocks[id] == Polled(old(db.stocks)[id], old(db.stocks)[id], fetch(old(db.stocks)[id].symbol), db.clock)
      {
        var row := old(db.stocks)[id];
        assert row in stocks;
        var j :| 0 <= j < |stocks| && stocks[j] == row;
      }
    }

    /** The state of the tables and the hub when a cycle has processed the first `i` rows of its snapshot. */
    ghost predicate CycleProgress(cycle: CycleStart, fetch: string -> QuoteResult, i: int)
      reads db, hub
      requires 0 <= i <= |cycle.snapshot|
    {
      && db.Valid()
      && db.clock == cycle.clock && db.nextStockId == cycle.nextStockId
      && Progress(cycle, fetch, i, db.stocks, db.notifications, db.nextNotificationId, hub.events)
    }

    /** The loop body of `runCycle`: `processStock` on the next snapshot row. */
    method ProcessNext(cycle: CycleStart, fetch: string -> QuoteResult, i: nat)
      requires i < |cycle.snapshot|
      requires CycleProgress(cycle, fetch, i)
      modifies db, hub
      ensures CycleProgress(cycle, fetch, i + 1)
    {
      var stock := cycle.snapshot[i];
      ghost var rowsBefore, notificationsBefore, nextId, eventsBefore := db.stocks, db.notifications, db.nextNotificationId, hub.events;
      ProgressHasRow(cycle, fetch, i, rowsBefore, notificationsBefore, nextId, eventsBefore);
      ProcessStock(stock, fetch(stock.symbol));
      ProgressStep(cycle, fetch, i, rowsBefore, notificationsBefore, nextId, eventsBefore,
        db.stocks, db.notifications, db.nextNotificationId, hub.events);
    }

    /** `processStock` for one snapshot row and the answer of the quote source. */
    method ProcessStock(stock: StockRecord, quote: QuoteResult)
      requires db.Valid()
      modifies db, hub
      ensures db.Valid()
      ensures db.clock == old(db.clock) && db.nextStockId == old(db.nextStockId)
      ensures stock.id !in old(db.stocks) ==>
        && db.stocks == old(db.stocks)
        && db.notifications == old(db.notifications)
        && db.nextNotificationId == old(db.nextNotificationId)
        && hub.events == old(hub.events)
      ensures stock.id in old(db.stocks) ==>
        && db.stocks == old(db.stocks)[stock.id := Polled(old(db.stocks)[stock.id], stock, quote, db.clock)]
        && db.notifications == old(db.notifications) + StockAlerts(stock, quote, old(db.nextNotificationId), db.clock)
        && db.nextNotificationId == old(db.nextNotificationId) + |StockAlerts(stock, quote, old(db.nextNotificationId), db.clock)|
        && hub.events == old(hub.events) + StockEvents(old(db.stocks)[stock.id], stock, quote, old(db.nextNotificationId), db.clock)
    {
      if quote.QuoteFailure? {
        // fetchQuote throws before anything is written
        return;
      }
      var price := quote.price;
      db.UpdateLastPrice(stock.id, price);
      var updated := db.FindById(stock.id);
      if updated.None? {
        return;
      }
      hub.BroadcastStock(updated.value);
      var crossed := HasCrossed(stock, price);
      if !crossed {
        return;
      }
      var record := db.Record(stock.id, AlertMessage(stock, price), price);
      if record.Success? {
        db.UpdateLastAlert(stock.id);
        hub.BroadcastNotification(record.value, StockLabel(stock.symbol, stock.displayName));
      }
    }
  }

  /**
   * The tables and the event log once the first `i` rows of a cycle's snapshot are
   * processed: those rows polled, and their alerts and events appended in snapshot order.
   */
  ghost predicate Progress(cycle: CycleStart, fetch: string -> QuoteResult, i: int, rows: map<int, StockRecord>,
                           notifications: seq<NotificationRecord>, nextId: int, events: seq<Event>)
    requires 0 <= i <= |cycle.snapshot|
  {
    && DistinctIds(cycle.snapshot)
    && rows.Keys == cycle.stocks.Keys
    && PolledUpTo(cycle.snapshot, i, fetch, cycle.clock, rows)
    && notifications == cycle.notifications + CycleAlerts(cycle.snapshot[..i], fetch, cycle.firstId, cycle.clock)
    && nextId == cycle.firstId + |CycleAlerts(cycle.snapshot[..i], fetch, cycle.firstId, cycle.clock)|
    && events == cycle.events + CycleEvents(cycle.snapshot[..i], fetch, cycle.firstId, cycle.clock)
  }

  /** The next row to process is still the snapshot's copy. */
  lemma ProgressHasRow(cycle: CycleStart, fetch: string -> QuoteResult, i: int, rows: map<int, StockRecord>,
                       notifications: seq<NotificationRecord>, nextId: int, events: seq<Event>)
    requires 0 <= i < |cycle.snapshot|
    requires Progress(cycle, fetch, i, rows, notifications, nextId, events)
    ensures cycle.snapshot[i].id in rows && rows[cycle.snapshot[i].id] == cycle.snapshot[i]
  {
  }

  /** `processStock` on row `i` takes the cycle from `i` rows done to `i + 1`. */
  lemma ProgressStep(cycle: CycleStart, fetch: string -> QuoteResult, i: int, rows: map<int, StockRecord>,
                     notifications: seq<NotificationRecord>, nextId: int, events: seq<Event>,
                     rows': map<int, StockRecord>, notifications': seq<NotificationRecord>, nextId': int, events': seq<Event>)
    requires 0 <= i < |cycle.snapshot|
    requires Progress(cycle, fetch, i, rows, notifications, nextId, events)
    requires var stock := cycle.snapshot[i];
      var quote := fetch(stock.symbol);
      && rows' == rows[stock.id := Polled(stock, stock, quote, cycle.clock)]
      && notifications' == notifications + StockAlerts(stock, quote, nextId, cycle.clock)
      && nextId' == nextId + |StockAlerts(stock, quote, nextId, cycle.clock)|
      && events' == events + StockEvents(stock, stock, quote, nextId, cycle.clock)
    ensures Progress(cycle, fetch, i + 1, rows', notifications', nextId', events')
  {
    var stocks := cycle.snapshot;
    var stock := stocks[i];
    PolledUpToStep(stocks, i, fetch, cycle.clock, rows, rows');
    AlertLogStep(stocks, i, fetch, cycle.firstId, cycle.clock, cycle.notifications, notifications, nextId, notifications');
    EventLogStep(stocks, i, fetch, cycle.firstId, cycle.clock, cycle.events, events, nextId, events');
  }

  /** The rows of the first `i` snapshot entries have been polled; the rest are as in the snapshot. */
  ghost predicate PolledUpTo(snapshot: seq<StockRecord>, i: int, fetch: string -> QuoteResult, now: Timestamp,
                             rows: map<int, StockRecord>)
  {
    forall j :: 0 <= j < |snapshot| ==>
      && snapshot[j].id in rows
      && rows[snapshot[j].id] == if j < i then Polled(snapshot[j], snapshot[j], fetch(snapshot[j].symbol), now) else snapshot[j]
  }

  /** Polling row `i` of a snapshot with distinct ids leaves every other entry's row alone. */
  lemma PolledUpToStep(snapshot: seq<StockRecord>, i: int, fetch: string -> QuoteResult, now: Timestamp,
                       before: map<int, StockRecord>, after: map<int, StockRecord>)
    requires 0 <= i < |snapshot| && DistinctIds(snapshot)
    requires PolledUpTo(snapshot, i, fetch, now, before)
    requires after == before[snapshot[i].id := Polled(snapshot[i], snapshot[i], fetch(snapshot[i].symbol), now)]
    ensures PolledUpTo(snapshot, i + 1, fetch, now, after)
  {
  }

  /** The rows `list()` returns carry distinct ids. */
  lemma SnapshotIdsDistinct(rows: seq<StockRecord>, stocks: map<int, StockRecord>)
    requires SortedBySymbol(rows)
    requires forall r :: r in rows ==> r.id in stocks && stocks[r.id] == r
    ensures DistinctIds(rows)
  {
    forall j, k | 0 <= j < k < |rows|
      ensures rows[j].id != rows[k].id
    {
      assert rows[j] in rows && rows[k] in rows;
      SymbolLessIrreflexive(rows[j].symbol);
    }
  }
}
