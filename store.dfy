/**
 * The two SQLite tables as an in-memory database: `stocks` keyed by id,
 * `notifications` in insertion order, and the repositories that read and
 * write them. Foreign keys are enforced, so a notification always belongs to
 * a stock that exists and deleting a stock deletes its notifications.
 */
module Store {
  import opened Types

  /** Ordering of `ORDER BY symbol ASC`: lexicographic on code points, a proper prefix first. */
  predicate SymbolLess(a: string, b: string): (less: bool)
    ensures less ==> a != b
    ensures a != [] && b != [] && a[0] < b[0] ==> less
  {
    if a == [] then b != []
    else if b == [] then false
    else if a[0] != b[0] then a[0] < b[0]
    else SymbolLess(a[1..], b[1..])
  }

  lemma {:induction false} SymbolLessIrreflexive(a: string)
    ensures !SymbolLess(a, a)
  {
    if a != [] {
      SymbolLessIrreflexive(a[1..]);
    }
  }

  lemma {:induction false} SymbolLessTransitive(a: string, b: string, c: string)
    requires SymbolLess(a, b) && SymbolLess(b, c)
    ensures SymbolLess(a, c)
  {
    if a != [] && a[0] == b[0] && b[0] == c[0] {
      SymbolLessTransitive(a[1..], b[1..], c[1..]);
    }
  }

  lemma {:induction false} SymbolLessTotal(a: string, b: string)
    requires a != b
    ensures SymbolLess(a, b) || SymbolLess(b, a)
  {
    if a != [] && b != [] && a[0] == b[0] {
      assert a == [a[0]] + a[1..] && b == [b[0]] + b[1..];
      SymbolLessTotal(a[1..], b[1..]);
    }
  }

  lemma {:induction false} SymbolLessAsymmetric(a: string, b: string)
    requires SymbolLess(a, b)
    ensures !SymbolLess(b, a)
  {
    if a != [] && a[0] == b[0] {
      SymbolLessAsymmetric(a[1..], b[1..]);
    }
  }

  /** Strictly ascending by symbol; since symbols are unique this is the order `list()` returns. */
  predicate SortedBySymbol(rows: seq<StockRecord>)
  {
    forall i, j :: 0 <= i < j < |rows| ==> SymbolLess(rows[i].symbol, rows[j].symbol)
  }

  /** Puts `r` into its place in a list sorted by symbol. */
  function InsertBySymbol(rows: seq<StockRecord>, r: StockRecord): (res: seq<StockRecord>)
    requires SortedBySymbol(rows)
    requires forall x :: x in rows ==> x.symbol != r.symbol
    ensures SortedBySymbol(res)
    ensures |res| == |rows| + 1
    ensures forall x :: x in res <==> x in rows || x == r
  {
    if rows == [] then [r]
    else if SymbolLess(r.symbol, rows[0].symbol) then
      assert forall j :: 0 < j < |rows| ==> SymbolLess(r.symbol, rows[j].symbol) by {
        forall j | 0 < j < |rows| ensures SymbolLess(r.symbol, rows[j].symbol) {
          SymbolLessTransitive(r.symbol, rows[0].symbol, rows[j].symbol);
        }
      }
      [r] + rows
    else
      assert SymbolLess(rows[0].symbol, r.symbol) by {
        SymbolLessTotal(r.symbol, rows[0].symbol);
      }
      var rest := InsertBySymbol(rows[1..], r);
      assert forall j :: 0 <= j < |rest| ==> SymbolLess(rows[0].symbol, rest[j].symbol) by {
        forall j | 0 <= j < |rest| ensures SymbolLess(rows[0].symbol, rest[j].symbol) {
          if rest[j] != r {
            assert rest[j] in rows[1..];
            var k :| 0 <= k < |rows[1..]| && rows[1..][k] == rest[j];
            assert rows[k + 1] == rest[j];
          }
        }
      }
      [rows[0]] + rest
  }

  /** Notifications in insertion order: ids ascending, trigger times not decreasing. */
  predicate Chronological(ns: seq<NotificationRecord>)
  {
    forall i, j :: 0 <= i < j < |ns| ==> ns[i].id < ns[j].id && ns[i].triggeredAt <= ns[j].triggeredAt
  }

  /** The `ON DELETE CASCADE` of `notifications.stock_id`: drops the records of one stock, keeping the order of the rest. */
  function CascadeDelete(ns: seq<NotificationRecord>, stockId: int): (res: seq<NotificationRecord>)
    ensures forall n :: n in res <==> n in ns && n.stockId != stockId
    ensures |res| <= |ns|
  {
    if ns == [] then []
    else if ns[0].stockId == stockId then CascadeDelete(ns[1..], stockId)
    else [ns[0]] + CascadeDelete(ns[1..], stockId)
  }

  /** What survives the cascade is still in insertion order. */
  lemma {:induction false} CascadeDeleteKeepsOrder(ns: seq<NotificationRecord>, stockId: int)
    requires Chronological(ns)
    ensures Chronological(CascadeDelete(ns, stockId))
  {
    if ns != [] {
      CascadeDeleteKeepsOrder(ns[1..], stockId);
      var rest := CascadeDelete(ns[1..], stockId);
      forall j | 0 <= j < |rest|
        ensures ns[0].id < rest[j].id && ns[0].triggeredAt <= rest[j].triggeredAt
      {
        assert rest[j] in ns[1..];
        var k :| 0 <= k < |ns[1..]| && ns[1..][k] == rest[j];
        assert ns[k + 1] == rest[j];
      }
    }
  }

  datatype DbError = UniqueViolation | ForeignKeyViolation

  /** One assignment of the `SET` list that `update` assembles. */
  datatype Assignment = SetAlarmPrice(price: real) | SetDirection(direction: Direction)

  function Assign(row: StockRecord, a: Assignment): StockRecord
  {
    match a
    case SetAlarmPrice(p) => row.(alarmPrice := p)
    case SetDirection(d) => row.(alarmDirection := d)
  }

  /** The row `update` leaves behind when at least one of the two fields is supplied. */
  function Edited(row: StockRecord, alarmPrice: Option<real>, direction: Option<Direction>, now: Timestamp): (res: StockRecord)
    ensures res.alarmPrice == (if alarmPrice.Some? then alarmPrice.value else row.alarmPrice)
    ensures res.alarmDirection == (if direction.Some? then direction.value else row.alarmDirection)
    ensures res.updatedAt == now
    ensures res.(alarmPrice := row.alarmPrice, alarmDirection := row.alarmDirection, updatedAt := row.updatedAt) == row
  {
    row.(alarmPrice := if alarmPrice.Some? then alarmPrice.value else row.alarmPrice,
         alarmDirection := if direction.Some? then direction.value else row.alarmDirection,
         updatedAt := now)
  }

  class Database {
    var stocks: map<int, StockRecord>
    var notifications: seq<NotificationRecord>
    var nextStockId: int
    var nextNotificationId: int
    /** The value `CURRENT_TIMESTAMP` currently has; only the environment moves it, forward. */
    var clock: Timestamp

    /** Primary keys, the UNIQUE symbol, the foreign key, and AUTOINCREMENT never reusing an id. */
    ghost predicate Valid()
      reads this
    {
      && 0 < nextStockId && 0 < nextNotificationId
      && (forall id :: id in stocks ==> stocks[id].id == id && 0 < id < nextStockId)
      && (forall i, j :: i in stocks && j in stocks && stocks[i].symbol == stocks[j].symbol ==> i == j)
      && (forall k :: 0 <= k < |notifications| ==>
            notifications[k].stockId in stocks
            && 0 < notifications[k].id < nextNotificationId
            && notifications[k].triggeredAt <= clock)
      && Chronological(notifications)
    }

    constructor ()
      ensures Valid()
      ensures stocks == map[] && notifications == []
    {
      stocks := map[];
      notifications := [];
      nextStockId := 1;
      nextNotificationId := 1;
      clock := 0;
    }

    /** Time passing between requests and cycles. */
    method Tick(elapsed: nat)
      requires Valid()
      modifies this`clock
      ensures Valid()
      ensures clock == old(clock) + elapsed
    {
      clock := clock + elapsed;
    }

    /** `StockRepository.findById`. */
    function FindById(id: int): (r: Option<StockRecord>)
      reads this
      requires Valid()
      ensures r.Some? <==> id in stocks
      ensures r.Some? ==> r.value.id == id && r.value == stocks[id]
    {
      if id in stocks then Some(stocks[id]) else None
    }

    /** `StockRepository.findBySymbol`: a scan of the table, in rowid order, for the row with that symbol. */
    method FindBySymbol(symbol: string) returns (r: Option<StockRecord>)
      requires Valid()
      ensures r.Some? ==> r.value.id in stocks && stocks[r.value.id] == r.value && r.value.symbol == symbol
      ensures r.None? <==> forall id :: id in stocks ==> stocks[id].symbol != symbol
    {
      var id := 1;
      while id < nextStockId
        invariant 1 <= id <= nextStockId
        invariant forall k :: k in stocks && k < id ==> stocks[k].symbol != symbol
      {
        if id in stocks && stocks[id].symbol == symbol {
          return Some(stocks[id]);
        }
        id := id + 1;
      }
      return None;
    }

    /** `StockRepository.list`: every row once, ascending by symbol. */
    method List() returns (rows: seq<StockRecord>)
      requires Valid()
      ensures SortedBySymbol(rows)
      ensures forall r :: r in rows <==> r.id in stocks && stocks[r.id] == r
    {
      rows := [];
      var id := 1;
      while id < nextStockId
        invariant 1 <= id <= nextStockId
        invariant SortedBySymbol(rows)
        invariant forall r :: r in rows <==> r.id in stocks && r.id < id && stocks[r.id] == r
      {
        if id in stocks {
          rows := InsertBySymbol(rows, stocks[id]);
        }
        id := id + 1;
      }
    }

    /** `StockRepository.create`: the INSERT, refused by the UNIQUE constraint on a symbol already present. */
    method Create(symbol: string, displayName: string, alarmPrice: real, direction: Direction, lastPrice: Option<real>)
      returns (r: Result<StockRecord, DbError>)
      requires Valid()
      modifies this`stocks, this`nextStockId
      ensures Valid()
      ensures r.Failure? <==> exists id :: id in old(stocks) && old(stocks)[id].symbol == symbol
      ensures r.Failure? ==> r.error == UniqueViolation && stocks == old(stocks) && nextStockId == old(nextStockId)
      ensures r.Success? ==>
        && r.value == StockRecord(old(nextStockId), symbol, displayName, alarmPrice, direction, lastPrice, None, clock, clock)
        && r.value.id !in old(stocks)
        && stocks == old(stocks)[r.value.id := r.value]
        && nextStockId == old(nextStockId) + 1
    {
      var existing := FindBySymbol(symbol);
      if existing.Some? {
        return Failure(UniqueViolation);
      }
      var row := StockRecord(nextStockId, symbol, displayName, alarmPrice, direction, lastPrice, None, clock, clock);
      stocks := stocks[nextStockId := row];
      nextStockId := nextStockId + 1;
      r := Success(row);
    }

    /**
     * `StockRepository.update`: collects the supplied fields into a SET list; with an
     * empty list it only reads the row, otherwise it runs the UPDATE (a no-op for an
     * unknown id) and reads the row back.
     */
    method Update(id: int, alarmPrice: Option<real>, direction: Option<Direction>) returns (r: Option<StockRecord>)
      requires Valid()
      modifies this`stocks
      ensures Valid()
      ensures r.Some? <==> id in old(stocks)
      ensures alarmPrice.None? && direction.None? ==> stocks == old(stocks) && r == FindById(id)
      ensures id !in old(stocks) ==> stocks == old(stocks)
      ensures id in old(stocks) && (alarmPrice.Some? || direction.Some?) ==>
        && r == Some(Edited(old(stocks)[id], alarmPrice, direction, clock))
        && stocks == old(stocks)[id := r.value]
    {
      var fields: seq<Assignment> := [];
      if alarmPrice.Some? {
        fields := fields + [SetAlarmPrice(alarmPrice.value)];
      }
      if direction.Some? {
        fields := fields + [SetDirection(direction.value)];
      }
      if |fields| == 0 {
        return FindById(id);
      }
      if id in stocks {
        var row := stocks[id];
        var i := 0;
        while i < |fields|
          invariant 0 <= i <= |fields|
          invariant row.(alarmPrice := stocks[id].alarmPrice, alarmDirection := stocks[id].alarmDirection) == stocks[id]
          invariant row.alarmPrice == if alarmPrice.Some? && 1 <= i then alarmPrice.value else stocks[id].alarmPrice
          invariant row.alarmDirection ==
            if direction.Some? && i == |fields| then direction.value else stocks[id].alarmDirection
        {
          row := Assign(row, fields[i]);
          i := i + 1;
        }
        assert row.id == id && row.symbol == stocks[id].symbol;
        stocks := stocks[id := row.(updatedAt := clock)];
      }
      return FindById(id);
    }

    /** `StockRepository.updateLastPrice`: sets `last_price` and `updated_at` of one row. */
    method UpdateLastPrice(id: int, lastPrice: real)
      requires Valid()
      modifies this`stocks
      ensures Valid()
      ensures stocks == if id in old(stocks)
        then old(stocks)[id := old(stocks)[id].(lastPrice := Some(lastPrice), updatedAt := clock)]
        else old(stocks)
    {
      if id in stocks {
        stocks := stocks[id := stocks[id].(lastPrice := Some(lastPrice), updatedAt := clock)];
      }
    }

    /** `StockRepository.updateLastAlert`: sets `last_alert_at` only; `updated_at` is left alone. */
    method UpdateLastAlert(id: int)
      requires Valid()
      modifies this`stocks
      ensures Valid()
      ensures stocks == if id in old(stocks)
        then old(stocks)[id := old(stocks)[id].(lastAlertAt := Some(clock))]
        else old(stocks)
    {
      if id in stocks {
        stocks := stocks[id := stocks[id].(lastAlertAt := Some(clock))];
      }
    }

    /** `StockRepository.delete`: removes the row and, by the cascade, its notifications. */
    method Delete(id: int)
      requires Valid()
      modifies this`stocks, this`notifications
      ensures Valid()
      ensures stocks == old(stocks) - {id}
      ensures notifications == CascadeDelete(old(notifications), id)
    {
      CascadeDeleteKeepsOrder(notifications, id);
      stocks := stocks - {id};
      notifications := CascadeDelete(notifications, id);
    }

    /** `NotificationRepository.record`: appends a record; the foreign key refuses an unknown stock. */
    method Record(stockId: int, message: Message, triggerPrice: real) returns (r: Result<NotificationRecord, DbError>)
      requires Valid()
      modifies this`notifications, this`nextNotificationId
      ensures Valid()
      ensures r.Failure? <==> stockId !in stocks
      ensures r.Failure? ==>
        && r.error == ForeignKeyViolation
        && notifications == old(notifications)
        && nextNotificationId == old(nextNotificationId)
      ensures r.Success? ==>
        && r.value == NotificationRecord(old(nextNotificationId), stockId, message, triggerPrice, clock)
        && notifications == old(notifications) + [r.value]
        && nextNotificationId == old(nextNotificationId) + 1
    {
      if stockId !in stocks {
        return Failure(ForeignKeyViolation);
      }
      var rec := NotificationRecord(nextNotificationId, stockId, message, triggerPrice, clock);
      notifications := notifications + [rec];
      nextNotificationId := nextNotificationId + 1;
      r := Success(rec);
    }

    /**
     * `NotificationRepository.list`: the `limit` newest records, newest first.
     * Among records with the same trigger time SQL fixes no order; this takes the later insert first.
     */
    method ListNotifications(limit: nat) returns (recent: seq<NotificationRecord>)
      requires Valid()
      ensures |recent| == if limit < |notifications| then limit else |notifications|
      ensures forall k :: 0 <= k < |recent| ==> recent[k] == notifications[|notifications| - 1 - k]
      ensures forall i, j :: 0 <= i < j < |recent| ==> recent[i].triggeredAt >= recent[j].triggeredAt
      ensures forall n :: n in notifications && n !in recent ==>
                (forall k :: 0 <= k < |recent| ==> n.triggeredAt <= recent[k].triggeredAt)
    {
      recent := [];
      var i := |notifications|;
      while i > 0 && |recent| < limit
        invariant 0 <= i <= |notifications|
        invariant |recent| == |notifications| - i
        invariant |recent| <= limit
        invariant forall k :: 0 <= k < |recent| ==> recent[k] == notifications[|notifications| - 1 - k]
      {
        i := i - 1;
        recent := recent + [notifications[i]];
      }
      assert forall m :: i <= m < |notifications| ==> notifications[m] == recent[|notifications| - 1 - m];
      forall n | n in notifications && n !in recent
        ensures forall k :: 0 <= k < |recent| ==> n.triggeredAt <= recent[k].triggeredAt
      {
        var m :| 0 <= m < |notifications| && notifications[m] == n;
      }
    }
  }
}
