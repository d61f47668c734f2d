/**
 * The dashboard's list state: the updaters the socket listeners and the
 * create/update/delete handlers pass to `setState`. Each builds a new list
 * from the previous one, so each is a function from list to list.
 */
module Client {
  import opened Types

  // ---------------------------------------------------------------------------
  // `stock:update`: upsert by id
  // ---------------------------------------------------------------------------

  /** `findIndex` on the id: the first position holding `id`, or -1. */
  function FindIndex(stocks: seq<StockRecord>, id: int): (r: int)
    ensures -1 <= r < |stocks|
    ensures r == -1 <==> forall k :: 0 <= k < |stocks| ==> stocks[k].id != id
    ensures r >= 0 ==> stocks[r].id == id && forall k :: 0 <= k < r ==> stocks[k].id != id
  {
    if stocks == [] then -1
    else if stocks[0].id == id then 0
    else
      var rest := FindIndex(stocks[1..], id);
      if rest == -1 then -1 else rest + 1
  }

  /** The `stock:update` updater: replace the first entry with the same id, or append. */
  function OnStockUpdate(stocks: seq<StockRecord>, stock: StockRecord): (next: seq<StockRecord>)
    ensures stock in next
    ensures |stocks| <= |next| <= |stocks| + 1
    ensures forall x :: x in next ==> x == stock || x in stocks
    ensures forall k :: 0 <= k < |stocks| && stocks[k].id != stock.id ==> next[k] == stocks[k]
  {
    var found := FindIndex(stocks, stock.id);
    if found >= 0 then
      var next := stocks[found := stock];
      assert next[found] == stock;
      next
    else
      var next := stocks + [stock];
      assert next[|stocks|] == stock;
      next
  }

  /**
   * An entry with the same id is replaced where it stands and the length is kept;
   * otherwise the stock goes to the end. Every other entry stays where it was.
   */
  lemma UpsertPlacement(stocks: seq<StockRecord>, stock: StockRecord)
    ensures var next := OnStockUpdate(stocks, stock);
      && (exists k :: 0 <= k < |stocks| && stocks[k].id == stock.id) ==>
           |next| == |stocks|
           && next[FindIndex(stocks, stock.id)] == stock
           && (forall k :: 0 <= k < |stocks| && k != FindIndex(stocks, stock.id) ==> next[k] == stocks[k])
    ensures (forall k :: 0 <= k < |stocks| ==> stocks[k].id != stock.id) ==>
      OnStockUpdate(stocks, stock) == stocks + [stock]
  {
  }

  /** The upsert keeps ids distinct, and the incoming stock is in the list afterwards. */
  lemma UpsertKeepsIdsDistinct(stocks: seq<StockRecord>, stock: StockRecord)
    requires DistinctIds(stocks)
    ensures DistinctIds(OnStockUpdate(stocks, stock))
    ensures stock in OnStockUpdate(stocks, stock)
  {
    var next := OnStockUpdate(stocks, stock);
    var found := FindIndex(stocks, stock.id);
    forall j, k | 0 <= j < k < |next|
      ensures next[j].id != next[k].id
    {
      if found < 0 {
        if k == |stocks| {
          assert stocks[j].id != stock.id;
        }
      } else if j == found {
        assert next[k] == stocks[k];
      } else if k == found {
        assert next[j] == stocks[j];
      }
    }
    assert next[if found < 0 then |stocks| else found] == stock;
  }

  /** Receiving the same update twice leaves the list as one receipt does. */
  lemma UpsertIdempotent(stocks: seq<StockRecord>, stock: StockRecord)
    ensures OnStockUpdate(OnStockUpdate(stocks, stock), stock) == OnStockUpdate(stocks, stock)
  {
    var next := OnStockUpdate(stocks, stock);
    var found := FindIndex(stocks, stock.id);
    FirstIndex(next, stock.id, if found < 0 then |stocks| else found);
  }

  /** `findIndex` answers the first position holding the id. */
  lemma FirstIndex(stocks: seq<StockRecord>, id: int, i: int)
    requires 0 <= i < |stocks| && stocks[i].id == id
    requires forall k :: 0 <= k < i ==> stocks[k].id != id
    ensures FindIndex(stocks, id) == i
  {
    var r := FindIndex(stocks, id);
    assert r != -1 by {
      assert stocks[i].id == id;
    }
  }

  // ---------------------------------------------------------------------------
  // `stock:list` and `alarm:triggered`
  // ---------------------------------------------------------------------------

  /** The `stock:list` updater: the list is replaced by the payload, whatever it held. */
  function OnStockList(stocks: seq<StockRecord>, list: seq<StockRecord>): (next: seq<StockRecord>)
    ensures |next| == |list| && forall k :: 0 <= k < |list| ==> next[k] == list[k]
  {
    list
  }

  /** The number of alerts the list keeps. */
  const NotificationCap: nat := 50

  /** The `alarm:triggered` updater: the new alert first, then the older ones, cut to 50. */
  function OnAlarm(items: seq<NotificationItem>, item: NotificationItem): (next: seq<NotificationItem>)
    ensures |next| == if |items| + 1 < NotificationCap then |items| + 1 else NotificationCap
    ensures next[0] == item
    ensures forall k :: 1 <= k < |next| ==> next[k] == items[k - 1]
  {
    var all := [item] + items;
    all[..if |all| < NotificationCap then |all| else NotificationCap]
  }

  /** The list after a run of `alarm:triggered` events, in arrival order. */
  function Arrivals(items: seq<NotificationItem>, later: seq<NotificationItem>): (next: seq<NotificationItem>)
    ensures later != [] ==>
      |next| == if |items| + |later| < NotificationCap then |items| + |later| else NotificationCap
    decreases |later|
  {
    if later == [] then items else Arrivals(OnAlarm(items, later[0]), later[1..])
  }

  /** After `n` further arrivals an entry at position `p` has moved to `p + n`, while it fits under the cap. */
  lemma {:induction false} ArrivalsShift(items: seq<NotificationItem>, later: seq<NotificationItem>, p: nat)
    requires p < |items|
    ensures p + |later| < NotificationCap ==>
      |Arrivals(items, later)| > p + |later| && Arrivals(items, later)[p + |later|] == items[p]
    decreases |later|
  {
    if later != [] && p + |later| < NotificationCap {
      var next := OnAlarm(items, later[0]);
      assert next[p + 1] == items[p];
      ArrivalsShift(next, later[1..], p + 1);
    }
  }

  // ---------------------------------------------------------------------------
  // The create, update and delete handlers
  // ---------------------------------------------------------------------------

  /** The creation form, with both text fields as typed. */
  datatype FormState = FormState(symbol: string, alarmPrice: string, direction: Direction)

  /**
   * `handleCreate`: with either field empty nothing happens; otherwise the row the
   * server answered (`None` when the request failed) is appended as it is.
   */
  function HandleCreate(stocks: seq<StockRecord>, form: FormState, answer: Option<StockRecord>): (next: seq<StockRecord>)
    ensures form.symbol == [] || form.alarmPrice == [] || answer.None? ==> next == stocks
    ensures form.symbol != [] && form.alarmPrice != [] && answer.Some? ==>
      |next| == |stocks| + 1 && next[..|stocks|] == stocks && next[|stocks|] == answer.value
  {
    if form.symbol == [] || form.alarmPrice == [] then stocks
    else if answer.None? then stocks
    else stocks + [answer.value]
  }

  /**
   * The server broadcasts a new row before it answers the POST, so the creating
   * client may have upserted the row already when it appends it: the list then
   * shows the row twice.
   */
  lemma CreateAfterBroadcastDuplicates(stocks: seq<StockRecord>, form: FormState, row: StockRecord)
    requires form.symbol != [] && form.alarmPrice != []
    requires forall k :: 0 <= k < |stocks| ==> stocks[k].id != row.id
    ensures var next := HandleCreate(OnStockUpdate(stocks, row), form, Some(row));
      |next| == |stocks| + 2 && next[|stocks|] == row && next[|stocks| + 1] == row
      && !DistinctIds(next)
  {
    var next := HandleCreate(OnStockUpdate(stocks, row), form, Some(row));
    assert next[|stocks|].id == next[|stocks| + 1].id;
  }

  /** `handleCreate` with the answer upserted rather than appended. */
  function HandleCreateUpsert(stocks: seq<StockRecord>, form: FormState, answer: Option<StockRecord>): (next: seq<StockRecord>)
    ensures form.symbol == [] || form.alarmPrice == [] || answer.None? ==> next == stocks
  {
    if form.symbol == [] || form.alarmPrice == [] || answer.None? then stocks
    else OnStockUpdate(stocks, answer.value)
  }

  /** With the upsert, the order in which the broadcast and the answer arrive does not matter and ids stay distinct. */
  lemma HandleCreateUpsertKeepsIdsDistinct(stocks: seq<StockRecord>, form: FormState, row: StockRecord)
    requires DistinctIds(stocks)
    ensures DistinctIds(HandleCreateUpsert(stocks, form, Some(row)))
    ensures form.symbol != [] && form.alarmPrice != [] ==>
      HandleCreateUpsert(OnStockUpdate(stocks, row), form, Some(row)) == OnStockUpdate(stocks, row)
  {
    UpsertKeepsIdsDistinct(stocks, row);
    UpsertIdempotent(stocks, row);
  }

  /** `handleUpdate`: every entry with the id becomes the server's row; the rest stay. */
  function ReplaceById(stocks: seq<StockRecord>, id: int, updated: StockRecord): (next: seq<StockRecord>)
    ensures |next| == |stocks|
    ensures forall k :: 0 <= k < |stocks| ==> next[k] == if stocks[k].id == id then updated else stocks[k]
  {
    if stocks == [] then []
    else [if stocks[0].id == id then updated else stocks[0]] + ReplaceById(stocks[1..], id, updated)
  }

  /** The server's row carries the id it was asked for, so the replacement keeps ids distinct. */
  lemma ReplaceKeepsIdsDistinct(stocks: seq<StockRecord>, id: int, updated: StockRecord)
    requires DistinctIds(stocks) && updated.id == id
    ensures DistinctIds(ReplaceById(stocks, id, updated))
  {
  }

  /** `handleDelete`: the entries with the id are dropped; the rest keep their order. */
  function RemoveById(stocks: seq<StockRecord>, id: int): (next: seq<StockRecord>)
    ensures forall x :: x in next <==> x in stocks && x.id != id
    ensures |next| <= |stocks|
  {
    if stocks == [] then []
    else if stocks[0].id == id then RemoveById(stocks[1..], id)
    else [stocks[0]] + RemoveById(stocks[1..], id)
  }

  /** Removal works piecewise, which is to say it keeps the relative order of what it keeps. */
  lemma {:induction false} RemoveDistributes(a: seq<StockRecord>, b: seq<StockRecord>, id: int)
    ensures RemoveById(a + b, id) == RemoveById(a, id) + RemoveById(b, id)
  {
    if a != [] {
      assert (a + b)[1..] == a[1..] + b;
      RemoveDistributes(a[1..], b, id);
    } else {
      assert a + b == b;
    }
  }

  /** A list without the id is left as it is. */
  lemma {:induction false} RemoveAbsent(stocks: seq<StockRecord>, id: int)
    requires forall k :: 0 <= k < |stocks| ==> stocks[k].id != id
    ensures RemoveById(stocks, id) == stocks
  {
    if stocks != [] {
      RemoveAbsent(stocks[1..], id);
    }
  }

  /** `latestNotifications`: the five newest alerts, as the list holds them. */
  function LatestNotifications(items: seq<NotificationItem>): (latest: seq<NotificationItem>)
    ensures |latest| == if |items| < 5 then |items| else 5
    ensures latest == items[..|latest|]
  {
    items[..if |items| < 5 then |items| else 5]
  }
}
