/** `get_candle_data` in `controllers/smartapi_controllers.py`: one
    `getCandleData` call over the last `days` days, and the mapping of each
    candle row to a record. */
module Candles {
  import opened Wrappers
  import opened Upstream
  import opened Service

  /** The dict built for one row; the fields hold whatever the row held. */
  datatype Candle = Candle(datetime: Cell, open: Cell, high: Cell, low: Cell, close: Cell, volume: Cell)

  /** Row elements 0..5 in field order. */
  function RowCandle(row: Row): Candle
    requires |row| >= 6
  {
    Candle(row[0], row[1], row[2], row[3], row[4], row[5])
  }

  /** The list comprehension over `candles["data"]`: `c[5]` on a row of
      fewer than six elements raises `IndexError`. */
  function ParseRows(rows: seq<Row>): (r: Result<seq<Candle>, Error>)
    ensures r.Ok? <==> forall i :: 0 <= i < |rows| ==> |rows[i]| >= 6
    ensures r.Err? ==> r.error == IndexError
    ensures r.Ok? ==> |r.value| == |rows|
    ensures r.Ok? ==> forall i :: 0 <= i < |rows| ==> |rows[i]| >= 6 && r.value[i] == RowCandle(rows[i])
  {
    if |rows| == 0 then Ok([])
    else if |rows[0]| < 6 then Err(IndexError)
    else
      match ParseRows(rows[1..])
      case Err(e) => Err(e)
      case Ok(rest) =>
        assert forall i :: 1 <= i < |rows| ==> rows[i] == rows[1..][i - 1];
        Ok([RowCandle(rows[0])] + rest)
  }

  /** A record written back as the six-element row it came from. */
  function ToRow(c: Candle): (row: Row)
    ensures |row| == 6 && RowCandle(row) == c
  {
    [c.datetime, c.open, c.high, c.low, c.close, c.volume]
  }

  function ToRows(cs: seq<Candle>): (rows: seq<Row>)
    ensures |rows| == |cs|
  {
    if |cs| == 0 then [] else [ToRow(cs[0])] + ToRows(cs[1..])
  }

  /** Parsing loses nothing: rows written from records parse back to the
      same records, in the same order. */
  lemma {:induction false} ParseRowsRoundTrip(cs: seq<Candle>)
    ensures ParseRows(ToRows(cs)) == Ok(cs)
  {
    if |cs| > 0 {
      ParseRowsRoundTrip(cs[1..]);
      var rows := ToRows(cs);
      assert rows == [ToRow(cs[0])] + ToRows(cs[1..]);
      assert rows[0] == ToRow(cs[0]) && rows[1..] == ToRows(cs[1..]);
      assert ParseRows(rows) == Ok([RowCandle(rows[0])] + cs[1..]);
      assert cs == [cs[0]] + cs[1..];
    }
  }

  const MinutesPerDay: int := 24 * 60

  /** The `params` of the call: from `days` days before `now` up to `now`. */
  function CandleParams(exchange: string, symboltoken: string, interval: string, days: int, now: int)
    : (q: CandleQuery)
    ensures q.exchange == exchange && q.symboltoken == symboltoken && q.interval == interval
    ensures q.toTime - q.fromTime == days * MinutesPerDay && q.toTime == now
  {
    CandleQuery(exchange, symboltoken, interval, now - days * MinutesPerDay, now)
  }

  /** What the body makes of one `getCandleData` outcome: the SDK exception
      is re-raised; a falsy answer or one without `"data"` raises
      `No candle data received`; `"data": null` cannot be iterated. */
  function CandleRows(o: Outcome<Response<seq<Row>>>): (r: Result<seq<Row>, Error>)
    ensures r == Err(ValueError(NoCandleData)) <==>
      o.Returned? && (o.value.NoResponse? || o.value.data.Absent?)
    ensures r.Ok? <==> o.Returned? && o.value.Payload? && o.value.data.Present?
    ensures r.Ok? ==> r.value == o.value.data.value
    ensures o.Raised? ==> r == Err(SdkError(o.msg))
    ensures o == Returned(Payload(Null)) ==> r == Err(TypeError)
  {
    match o
    case Raised(msg) => Err(SdkError(msg))
    case Returned(NoResponse) => Err(ValueError(NoCandleData))
    case Returned(Payload(Absent)) => Err(ValueError(NoCandleData))
    case Returned(Payload(Null)) => Err(TypeError)
    case Returned(Payload(Present(rows))) => Ok(rows)
  }

  /** `get_candle_data(exchange, tradingsymbol, symboltoken, interval, days)`
      at wall-clock minute `now`. `tradingsymbol` is accepted but unused. */
  function GetCandleData(p: Process, w: World, exchange: string, tradingsymbol: string,
                         symboltoken: string, interval: string, days: int, now: int)
    : (r: (Result<seq<Candle>, Error>, Process))
    ensures var (c, p1) := GetApiObject(p, w);
      var o := w.candles(p.candleFetches, CandleParams(exchange, symboltoken, interval, days, now));
      && (c.Err? ==> r == (Err(c.error), p1))
      && (c.Ok? ==> r.1 == p1.(candleFetches := p.candleFetches + 1))
      && (c.Ok? && o.Raised? ==> r.0 == Err(SdkError(o.msg)))
      && (c.Ok? && o.Returned? && (o.value.NoResponse? || o.value.data.Absent?) ==>
            r.0 == Err(ValueError(NoCandleData)))
      && (c.Ok? && CandleRows(o).Err? ==> r.0 == Err(CandleRows(o).error))
      && (c.Ok? && CandleRows(o).Ok? ==> r.0 == ParseRows(CandleRows(o).value))
      && (r.0.Ok? ==> CandleRows(o).Ok? && ParseRows(CandleRows(o).value) == r.0)
    ensures r.1.memo == p.memo && r.1.searches == p.searches && r.1.quotes == p.quotes
    ensures p.slot.Some? ==> r.1.slot == p.slot
  {
    var (c, p1) := GetApiObject(p, w);
    if c.Err? then (Err(c.error), p1)
    else
      var p2 := p1.(candleFetches := p1.candleFetches + 1);
      match CandleRows(w.candles(p1.candleFetches, CandleParams(exchange, symboltoken, interval, days, now)))
      case Err(e) => (Err(e), p2)
      case Ok(rows) => (ParseRows(rows), p2)
  }

  /** Candles reach the caller intact: when the upstream answers with the
      rows of some records, `get_candle_data` returns those records. */
  lemma CandlesArriveIntact(p: Process, w: World, exchange: string, tradingsymbol: string,
                            symboltoken: string, interval: string, days: int, now: int, cs: seq<Candle>)
    requires GetApiObject(p, w).0.Ok?
    requires w.candles(p.candleFetches, CandleParams(exchange, symboltoken, interval, days, now))
      == Returned(Payload(Present(ToRows(cs))))
    ensures GetCandleData(p, w, exchange, tradingsymbol, symboltoken, interval, days, now).0 == Ok(cs)
  {
    ParseRowsRoundTrip(cs);
  }
}
