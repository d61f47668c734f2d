/**
 * The `/api/stocks` router: request validation, symbol normalisation and the
 * decisions each handler takes over the table and the socket hub before it
 * chooses a status. An error passed to `next` reaches the application's error
 * handler, which answers 500; that includes a request body the schema refuses.
 */
module Routes {
  import opened Types
  import opened Store
  import opened Notifier
  import Monitor

  // ---------------------------------------------------------------------------
  // Symbol normalisation: `payload.symbol.trim().toUpperCase()`
  // ---------------------------------------------------------------------------

  /** The characters `String.prototype.trim` strips: white space and line terminators. */
  predicate IsWhitespace(c: char)
  {
    || c == ' ' || c == '\t' || c == '\n' || c == '\r' || c == '\U{000B}' || c == '\U{000C}'
    || c == '\U{00A0}' || c == '\U{1680}' || ('\U{2000}' <= c <= '\U{200A}')
    || c == '\U{2028}' || c == '\U{2029}' || c == '\U{202F}' || c == '\U{205F}'
    || c == '\U{3000}' || c == '\U{FEFF}'
  }

  /** Leading white space removed. */
  function TrimStart(s: string): (r: string)
    ensures |r| <= |s| && r == s[|s| - |r|..]
    ensures forall k :: 0 <= k < |s| - |r| ==> IsWhitespace(s[k])
    ensures r != [] ==> !IsWhitespace(r[0])
  {
    if s != [] && IsWhitespace(s[0]) then TrimStart(s[1..]) else s
  }

  /** Trailing white space removed. */
  function TrimEnd(s: string): (r: string)
    ensures |r| <= |s| && r == s[..|r|]
    ensures forall k :: |r| <= k < |s| ==> IsWhitespace(s[k])
    ensures r != [] ==> !IsWhitespace(r[|r| - 1])
  {
    if s != [] && IsWhitespace(s[|s| - 1]) then TrimEnd(s[..|s| - 1]) else s
  }

  /** No white space at either end. */
  predicate Trimmed(s: string)
  {
    s == [] || (!IsWhitespace(s[0]) && !IsWhitespace(s[|s| - 1]))
  }

  /** `r` is `s` with `i` characters of white space cut from the front and only white space cut from the back. */
  ghost predicate StripsTo(s: string, r: string, i: int)
  {
    && 0 <= i <= |s| - |r| && r == s[i..i + |r|]
    && (forall k :: 0 <= k < i ==> IsWhitespace(s[k]))
    && (forall k :: i + |r| <= k < |s| ==> IsWhitespace(s[k]))
  }

  /** `trim`: the slice of `s` left once white space is stripped from both ends. */
  function Trim(s: string): (r: string)
    ensures Trimmed(r)
    ensures exists i :: StripsTo(s, r, i)
  {
    var front := TrimStart(s);
    var r := TrimEnd(front);
    assert StripsTo(s, r, |s| - |front|);
    r
  }

  /** A string with no white space at its ends is its own trim. */
  lemma TrimOfTrimmed(s: string)
    requires Trimmed(s)
    ensures Trim(s) == s
  {
  }

  /** A string made only of white space trims to the empty string. */
  lemma TrimOfBlank(s: string)
    requires forall k :: 0 <= k < |s| ==> IsWhitespace(s[k])
    ensures Trim(s) == []
  {
  }

  /** `toUpperCase` on one character; only the ASCII letters are modelled. */
  function UpperChar(c: char): char
  {
    if 'a' <= c <= 'z' then (c as int - 'a' as int + 'A' as int) as char else c
  }

  /** `toUpperCase`, character by character. */
  function ToUpper(s: string): (r: string)
    ensures |r| == |s|
    ensures forall k :: 0 <= k < |s| ==> r[k] == UpperChar(s[k])
  {
    if s == [] then [] else [UpperChar(s[0])] + ToUpper(s[1..])
  }

  /** No lower-case ASCII letter. */
  predicate UpperCased(s: string)
  {
    forall k :: 0 <= k < |s| ==> !('a' <= s[k] <= 'z')
  }

  /** A symbol as the table stores it: trimmed and upper-cased. */
  predicate Normalized(s: string)
  {
    Trimmed(s) && UpperCased(s)
  }

  /** The symbol a POST stores: trimmed, then upper-cased. */
  function Normalize(symbol: string): (r: string)
    ensures Normalized(r)
    ensures |r| <= |symbol|
  {
    var t := Trim(symbol);
    UpperCasingKeepsTrimmed(t);
    ToUpper(t)
  }

  /** `toUpperCase` of a trimmed string is trimmed and has no lower-case letter. */
  lemma UpperCasingKeepsTrimmed(t: string)
    requires Trimmed(t)
    ensures Normalized(ToUpper(t))
  {
    var r := ToUpper(t);
    forall k | 0 <= k < |r|
      ensures !('a' <= r[k] <= 'z')
    {
      UpperCharNotLower(t[k]);
    }
    if r != [] {
      UpperKeepsNonWhitespace(t[0]);
      UpperKeepsNonWhitespace(t[|t| - 1]);
    }
  }

  /** Upper-casing never turns a character into white space. */
  lemma UpperKeepsNonWhitespace(c: char)
    requires !IsWhitespace(c)
    ensures !IsWhitespace(UpperChar(c))
  {
  }

  /** Upper-casing leaves no lower-case ASCII letter. */
  lemma UpperCharNotLower(c: char)
    ensures !('a' <= UpperChar(c) <= 'z')
  {
  }

  /** Normalising twice is normalising once: a stored symbol is left as it is. */
  lemma NormalizeIdempotent(symbol: string)
    ensures Normalize(Normalize(symbol)) == Normalize(symbol)
  {
    NormalizedIsFixed(Normalize(symbol));
  }

  /** A normalised string is its own normal form. */
  lemma NormalizedIsFixed(s: string)
    requires Normalized(s)
    ensures Normalize(s) == s
  {
    TrimOfTrimmed(s);
    assert ToUpper(s) == s;
  }

  /**
   * The non-empty check runs before trimming, so a symbol of white space only
   * passes the schema and is normalised to the empty string.
   */
  lemma BlankSymbolAccepted(blank: string, alarmPrice: real)
    requires blank != [] && forall k :: 0 <= k < |blank| ==> IsWhitespace(blank[k])
    requires alarmPrice > 0.0
    ensures var p := ParseCreate(CreateBody(Some(blank), Some(alarmPrice), None));
      p.Some? && Normalize(p.value.symbol) == []
  {
    TrimOfBlank(blank);
  }

  // ---------------------------------------------------------------------------
  // Request schemas
  // ---------------------------------------------------------------------------

  /** The `alarm_direction` text of a direction. */
  function DirectionText(d: Direction): string
  {
    match d
    case Above => "above"
    case Below => "below"
  }

  /** `z.enum(["above", "below"])`. */
  function ParseDirection(text: string): (r: Option<Direction>)
    ensures r.Some? <==> text == "above" || text == "below"
  {
    if text == "above" then Some(Above)
    else if text == "below" then Some(Below)
    else None
  }

  /** The enum accepts exactly the texts the table stores, and reads each back as itself. */
  lemma DirectionRoundTrip(d: Direction, text: string)
    ensures ParseDirection(DirectionText(d)) == Some(d)
    ensures ParseDirection(text).Some? ==> DirectionText(ParseDirection(text).value) == text
  {
  }

  /** A POST body; a field the client left out is `None` (coercion of strings to numbers is not modelled). */
  datatype CreateBody = CreateBody(symbol: Option<string>, alarmPrice: Option<real>, direction: Option<string>)

  datatype CreatePayload = CreatePayload(symbol: string, alarmPrice: real, direction: Direction)

  /** `createStockSchema.parse`. */
  function ParseCreate(body: CreateBody): (r: Option<CreatePayload>)
    ensures r.Some? <==>
      && body.symbol.Some? && |body.symbol.value| >= 1
      && body.alarmPrice.Some? && body.alarmPrice.value > 0.0
      && (body.direction.None? || ParseDirection(body.direction.value).Some?)
    ensures r.Some? ==>
      && r.value.symbol == body.symbol.value
      && r.value.alarmPrice == body.alarmPrice.value
      && r.value.direction == if body.direction.Some? then ParseDirection(body.direction.value).value else Above
  {
    if body.symbol.None? || |body.symbol.value| < 1 then None
    else if body.alarmPrice.None? || body.alarmPrice.value <= 0.0 then None
    else if body.direction.None? then Some(CreatePayload(body.symbol.value, body.alarmPrice.value, Above))
    else
      match ParseDirection(body.direction.value)
      case None => None
      case Some(d) => Some(CreatePayload(body.symbol.value, body.alarmPrice.value, d))
  }

  /** A PATCH body; an absent key is `None`. */
  datatype UpdateBody = UpdateBody(alarmPrice: Option<real>, direction: Option<string>)

  datatype UpdatePayload = UpdatePayload(alarmPrice: Option<real>, direction: Option<Direction>)

  /** `updateStockSchema.parse`: both fields optional, at least one present. */
  function ParseUpdate(body: UpdateBody): (r: Option<UpdatePayload>)
    ensures r.Some? <==>
      && (body.alarmPrice.Some? || body.direction.Some?)
      && (body.alarmPrice.Some? ==> body.alarmPrice.value > 0.0)
      && (body.direction.Some? ==> ParseDirection(body.direction.value).Some?)
    ensures r.Some? ==>
      && r.value.alarmPrice == body.alarmPrice
      && (r.value.direction.Some? <==> body.direction.Some?)
      && (body.direction.Some? ==> r.value.direction == ParseDirection(body.direction.value))
  {
    if body.alarmPrice.None? && body.direction.None? then None
    else if body.alarmPrice.Some? && body.alarmPrice.value <= 0.0 then None
    else if body.direction.None? then Some(UpdatePayload(body.alarmPrice, None))
    else
      match ParseDirection(body.direction.value)
      case None => None
      case Some(d) => Some(UpdatePayload(body.alarmPrice, Some(d)))
  }

  // ---------------------------------------------------------------------------
  // Responses and the table invariant the handlers keep
  // ---------------------------------------------------------------------------

  /** What a handler answers; messages of the error bodies are not modelled. */
  datatype Response =
    | Created(stock: StockRecord)
    | Updated(stock: StockRecord)
    | StockRows(stocks: seq<StockRecord>)
    | NotificationRows(records: seq<NotificationRecord>)
    | NoContent
    | NotFound
    | Conflict
    | ServerError

  /** The HTTP status of a response. */
  function Status(resp: Response): int
  {
    match resp
    case Created(_) => 201
    case Updated(_) => 200
    case StockRows(_) => 200
    case NotificationRows(_) => 200
    case NoContent => 204
    case NotFound => 404
    case Conflict => 409
    case ServerError => 500
  }

  /** Some row already carries this symbol. */
  ghost predicate SymbolTaken(stocks: map<int, StockRecord>, symbol: string)
  {
    exists id :: id in stocks && stocks[id].symbol == symbol
  }

  /** Every stored symbol is normalised and every alarm price is positive. */
  ghost predicate WellFormed(stocks: map<int, StockRecord>)
  {
    forall id :: id in stocks ==> Normalized(stocks[id].symbol) && stocks[id].alarmPrice > 0.0
  }

  /** Storing a row with a normalised symbol and a positive alarm price keeps the table well formed. */
  lemma StoreKeepsWellFormed(stocks: map<int, StockRecord>, row: StockRecord)
    requires WellFormed(stocks)
    requires Normalized(row.symbol) && row.alarmPrice > 0.0
    ensures WellFormed(stocks[row.id := row])
  {
  }

  /** A polling cycle rewrites prices and alert times only, so it keeps the invariant the handlers establish. */
  lemma PollingKeepsWellFormed(before: map<int, StockRecord>, after: map<int, StockRecord>,
                               fetch: string -> QuoteResult, now: Timestamp)
    requires WellFormed(before)
    requires after.Keys == before.Keys
    requires forall id :: id in before ==>
      after[id] == Monitor.Polled(before[id], before[id], fetch(before[id].symbol), now)
    ensures WellFormed(after)
  {
    forall id | id in after
      ensures Normalized(after[id].symbol) && after[id].alarmPrice > 0.0
    {
      var row := before[id];
      var polled := Monitor.Polled(row, row, fetch(row.symbol), now);
      assert polled.symbol == row.symbol && polled.alarmPrice == row.alarmPrice;
    }
  }

  /** The number of recent notifications the list endpoint returns by default. */
  const RecentLimit: nat := 50

  /** `createStocksRouter(hub)`: the handlers share the table and the hub. */
  class StocksRouter {
    const db: Database
    const hub: Hub

    constructor (db: Database, hub: Hub)
      ensures this.db == db && this.hub == hub
    {
      this.db := db;
      this.hub := hub;
    }

    /** `GET /`: the whole table, by symbol. */
    method GetStocks() returns (resp: Response)
      requires db.Valid()
      ensures resp.StockRows? && Status(resp) == 200
      ensures SortedBySymbol(resp.stocks)
      ensures forall r :: r in resp.stocks <==> r.id in db.stocks && db.stocks[r.id] == r
    {
      var rows := db.List();
      resp := StockRows(rows);
    }

    /** `GET /notifications/recent`: the 50 newest records, newest first. */
    method GetRecentNotifications() returns (resp: Response)
      requires db.Valid()
      ensures resp.NotificationRows? && Status(resp) == 200
      ensures |resp.records| == if RecentLimit < |db.notifications| then RecentLimit else |db.notifications|
      ensures forall k :: 0 <= k < |resp.records| ==>
        resp.records[k] == db.notifications[|db.notifications| - 1 - k]
    {
      var recent := db.ListNotifications(RecentLimit);
      resp := NotificationRows(recent);
    }

    /**
     * `POST /`: validate, normalise the symbol, refuse a duplicate with 409, fetch
     * the quote, insert a row seeded from it, broadcast the row and answer 201.
     */
    method PostStock(body: CreateBody, fetch: string -> QuoteResult) returns (resp: Response)
      requires db.Valid()
      modifies db, hub
      ensures db.Valid()
      ensures db.notifications == old(db.notifications) && db.clock == old(db.clock)
      ensures db.nextNotificationId == old(db.nextNotificationId)
      ensures WellFormed(old(db.stocks)) ==> WellFormed(db.stocks)
      ensures ParseCreate(body).None? ==>
        && resp == ServerError && db.stocks == old(db.stocks) && db.nextStockId == old(db.nextStockId)
        && hub.events == old(hub.events)
      ensures ParseCreate(body).Some? && SymbolTaken(old(db.stocks), Normalize(ParseCreate(body).value.symbol)) ==>
        && resp == Conflict && db.stocks == old(db.stocks) && db.nextStockId == old(db.nextStockId)
        && hub.events == old(hub.events)
      ensures ParseCreate(body).Some? && !SymbolTaken(old(db.stocks), Normalize(ParseCreate(body).value.symbol))
              && fetch(Normalize(ParseCreate(body).value.symbol)).QuoteFailure? ==>
        && resp == ServerError && db.stocks == old(db.stocks) && db.nextStockId == old(db.nextStockId)
        && hub.events == old(hub.events)
      ensures ParseCreate(body).Some? && !SymbolTaken(old(db.stocks), Normalize(ParseCreate(body).value.symbol))
              && fetch(Normalize(ParseCreate(body).value.symbol)).Quote? ==>
        var p := ParseCreate(body).value;
        var symbol := Normalize(p.symbol);
        var quote := fetch(symbol);
        var row := StockRecord(old(db.nextStockId), symbol, quote.shortName, p.alarmPrice, p.direction,
                               Some(quote.price), None, db.clock, db.clock);
        && resp == Created(row) && Status(resp) == 201
        && db.stocks == old(db.stocks)[row.id := row]
        && db.nextStockId == old(db.nextStockId) + 1
        && hub.events == old(hub.events) + [StockUpdate(row)]
    {
      var payload := ParseCreate(body);
      if payload.None? {
        return ServerError;
      }
      resp := CreateValidated(payload.value, fetch);
    }

    /** The part of `POST /` after validation. */
    method CreateValidated(p: CreatePayload, fetch: string -> QuoteResult) returns (resp: Response)
      requires db.Valid()
      requires p.alarmPrice > 0.0
      modifies db, hub
      ensures db.Valid()
      ensures db.notifications == old(db.notifications) && db.clock == old(db.clock)
      ensures db.nextNotificationId == old(db.nextNotificationId)
      ensures WellFormed(old(db.stocks)) ==> WellFormed(db.stocks)
      ensures SymbolTaken(old(db.stocks), Normalize(p.symbol)) ==>
        && resp == Conflict && db.stocks == old(db.stocks) && db.nextStockId == old(db.nextStockId)
        && hub.events == old(hub.events)
      ensures !SymbolTaken(old(db.stocks), Normalize(p.symbol)) && fetch(Normalize(p.symbol)).QuoteFailure? ==>
        && resp == ServerError && db.stocks == old(db.stocks) && db.nextStockId == old(db.nextStockId)
        && hub.events == old(hub.events)
      ensures !SymbolTaken(old(db.stocks), Normalize(p.symbol)) && fetch(Normalize(p.symbol)).Quote? ==>
        var symbol := Normalize(p.symbol);
        var quote := fetch(symbol);
        var row := StockRecord(old(db.nextStockId), symbol, quote.shortName, p.alarmPrice, p.direction,
                               Some(quote.price), None, db.clock, db.clock);
        && resp == Created(row) && Status(resp) == 201
        && db.stocks == old(db.stocks)[row.id := row]
        && db.nextStockId == old(db.nextStockId) + 1
        && hub.events == old(hub.events) + [StockUpdate(row)]
    {
      var symbol := Normalize(p.symbol);
      var existing := db.FindBySymbol(symbol);
      if existing.Some? {
        assert db.stocks[existing.value.id].symbol == symbol;
        return Conflict;
      }
      var quote := fetch(symbol);
      if quote.QuoteFailure? {
        return ServerError;
      }
      ghost var before := db.stocks;
      var created := db.Create(symbol, quote.shortName, p.alarmPrice, p.direction, Some(quote.price));
      var row := created.value;
      if WellFormed(before) {
        StoreKeepsWellFormed(before, row);
      }
      hub.BroadcastStock(row);
      resp := Created(row);
    }

    /**
     * `PATCH /:id`: validate, apply the supplied fields, answer 404 for an
     * unknown id, otherwise broadcast the updated row and answer 200 with it.
     */
    method PatchStock(id: int, body: UpdateBody) returns (resp: Response)
      requires db.Valid()
      modifies db, hub
      ensures db.Valid()
      ensures db.notifications == old(db.notifications) && db.clock == old(db.clock)
      ensures db.nextStockId == old(db.nextStockId) && db.nextNotificationId == old(db.nextNotificationId)
      ensures WellFormed(old(db.stocks)) ==> WellFormed(db.stocks)
      ensures ParseUpdate(body).None? ==>
        resp == ServerError && db.stocks == old(db.stocks) && hub.events == old(hub.events)
      ensures ParseUpdate(body).Some? && id !in old(db.stocks) ==>
        resp == NotFound && db.stocks == old(db.stocks) && hub.events == old(hub.events)
      ensures ParseUpdate(body).Some? && id in old(db.stocks) ==>
        var p := ParseUpdate(body).value;
        var row := Edited(old(db.stocks)[id], p.alarmPrice, p.direction, db.clock);
        && resp == Updated(row) && Status(resp) == 200
        && db.stocks == old(db.stocks)[id := row]
        && hub.events == old(hub.events) + [StockUpdate(row)]
    {
      var payload := ParseUpdate(body);
      if payload.None? {
        return ServerError;
      }
      var updated := db.Update(id, payload.value.alarmPrice, payload.value.direction);
      if updated.None? {
        return NotFound;
      }
      hub.BroadcastStock(updated.value);
      resp := Updated(updated.value);
    }

    /**
     * `DELETE /:id`: 404 for an unknown id; otherwise remove the row (and by
     * the cascade its notifications), broadcast the remaining list, answer 204.
     */
    method DeleteStock(id: int) returns (resp: Response)
      requires db.Valid()
      modifies db, hub
      ensures db.Valid()
      ensures db.clock == old(db.clock)
      ensures db.nextStockId == old(db.nextStockId) && db.nextNotificationId == old(db.nextNotificationId)
      ensures WellFormed(old(db.stocks)) ==> WellFormed(db.stocks)
      ensures id !in old(db.stocks) ==>
        && resp == NotFound
        && db.stocks == old(db.stocks) && db.notifications == old(db.notifications)
        && hub.events == old(hub.events)
      ensures id in old(db.stocks) ==>
        && resp == NoContent && Status(resp) == 204
        && db.stocks == old(db.stocks) - {id}
        && db.notifications == CascadeDelete(old(db.notifications), id)
        && |hub.events| == |old(hub.events)| + 1
        && hub.events[..|old(hub.events)|] == old(hub.events)
        && var last := hub.events[|old(hub.events)|];
           && last.StockList?
           && SortedBySymbol(last.stocks)
           && (forall r :: r in last.stocks <==> r.id in db.stocks && db.stocks[r.id] == r)
    {
      var existing := db.FindById(id);
      if existing.None? {
        return NotFound;
      }
      db.Delete(id);
      var rows := db.List();
      hub.BroadcastStocks(rows);
      resp := NoContent;
    }
  }
}
