/** `combined_data` and `ticker_data` in
    `controllers/smartapi_controllers.py`, with the request arguments and
    the clock passed in and the JSON reply as a datatype. */
module Controllers {
  import opened Wrappers
  import opened Upstream
  import opened Scrips
  import opened Service
  import opened Candles
  import opened Metrics

  // ---------------------------------------------------------------------
  // combined_data

  /** The keys copied into the reply with `scrip.get(key)`, in source order. */
  const ExtraKeys: seq<string> := [
    "symboltoken", "tradingsymbol", "exchange", "name", "instrumenttype",
    "lotsize", "ticksize", "expiry", "strikeprice", "optiontype", "isin"]

  /** The only keys the resolver's dict has. */
  const ScripKeys: set<string> := {"exchange", "tradingsymbol", "symboltoken"}

  /** The dict `search_scrip_and_extract` returns. */
  function ScripDict(s: Scrip): (d: map<string, string>)
    ensures d.Keys == ScripKeys
  {
    map["exchange" := s.exchange, "tradingsymbol" := s.tradingsymbol, "symboltoken" := s.symboltoken]
  }

  /** `extra_info`: every key of `ExtraKeys`, `None` where the dict lacks it. */
  function ExtraInfo(d: map<string, string>): (r: map<string, Option<string>>)
    ensures forall k :: k in r <==> k in ExtraKeys
    ensures forall k :: k in r ==> (r[k].Some? <==> k in d)
    ensures forall k :: k in r && k in d ==> r[k] == Some(d[k])
  {
    map k | k in ExtraKeys :: if k in d then Some(d[k]) else None
  }

  /** Of the eleven `extra_info` entries only the three the resolver
      returns are set, and they carry the resolved triple. */
  lemma ExtraInfoOfScrip(s: Scrip)
    ensures var r := ExtraInfo(ScripDict(s));
      && (forall k :: k in r ==> (r[k].Some? <==> k in ScripKeys))
      && r["symboltoken"] == Some(s.symboltoken)
      && r["tradingsymbol"] == Some(s.tradingsymbol)
      && r["exchange"] == Some(s.exchange)
      && r["name"] == None && r["isin"] == None && r["lotsize"] == None
  {
    var r := ExtraInfo(ScripDict(s));
    assert "symboltoken" in ExtraKeys && "tradingsymbol" in ExtraKeys && "exchange" in ExtraKeys;
    assert "name" in ExtraKeys && "isin" in ExtraKeys && "lotsize" in ExtraKeys;
  }

  /** What the reply of a successful `combined_data` holds on top of the
      `ltpData` answer it extends. */
  datatype Report = Report(
    quote: Response<Quote>,
    dma5: Option<real>, dma30: Option<real>, dma50: Option<real>, dma200: Option<real>,
    ret1d: Option<real>, ret5d: Option<real>, ret30d: Option<real>, ret1y: Option<real>,
    high52: real, low52: real,
    extra: map<string, Option<string>>,
    latest: Option<Candle>)

  /** `jsonify(ltp_data)`, or `({"error": str(e)}, 400)`. */
  datatype Reply = Json(report: Report) | BadRequest(error: Error)

  function Closes(cs: seq<Candle>): (r: seq<Cell>)
    ensures |r| == |cs| && forall i :: 0 <= i < |cs| ==> r[i] == cs[i].close
  {
    seq(|cs|, i requires 0 <= i < |cs| => cs[i].close)
  }

  function Highs(cs: seq<Candle>): (r: seq<Cell>)
    ensures |r| == |cs| && forall i :: 0 <= i < |cs| ==> r[i] == cs[i].high
  {
    seq(|cs|, i requires 0 <= i < |cs| => cs[i].high)
  }

  function Lows(cs: seq<Candle>): (r: seq<Cell>)
    ensures |r| == |cs| && forall i :: 0 <= i < |cs| ==> r[i] == cs[i].low
  {
    seq(|cs|, i requires 0 <= i < |cs| => cs[i].low)
  }

  /** Every close, high and low is a number. */
  ghost predicate Numeric(cs: seq<Candle>) {
    forall i :: 0 <= i < |cs| ==> cs[i].close.Num? && cs[i].high.Num? && cs[i].low.Num?
  }

  /** `max(c['high'] for c in candle_data)`; `max` of nothing raises. */
  function High52(cs: seq<Candle>): (r: Result<real, Error>)
    ensures r.Ok? <==> |cs| > 0 && forall i :: 0 <= i < |cs| ==> cs[i].high.Num?
    ensures (forall i :: 0 <= i < |cs| ==> cs[i].high.Num?) && |cs| == 0 ==> r == Err(EmptySequence)
    ensures r.Ok? ==> forall i :: 0 <= i < |cs| ==> cs[i].high.num <= r.value
    ensures r.Ok? ==> exists i :: 0 <= i < |cs| && cs[i].high.num == r.value
  {
    match Prices(Highs(cs))
    case Err(e) => Err(e)
    case Ok(highs) =>
      assert forall i :: 0 <= i < |cs| ==> cs[i].high.num == highs[i];
      MaxOf(highs)
  }

  /** `min(c['low'] for c in candle_data)`; `min` of nothing raises. */
  function Low52(cs: seq<Candle>): (r: Result<real, Error>)
    ensures r.Ok? <==> |cs| > 0 && forall i :: 0 <= i < |cs| ==> cs[i].low.Num?
    ensures (forall i :: 0 <= i < |cs| ==> cs[i].low.Num?) && |cs| == 0 ==> r == Err(EmptySequence)
    ensures r.Ok? ==> forall i :: 0 <= i < |cs| ==> r.value <= cs[i].low.num
    ensures r.Ok? ==> exists i :: 0 <= i < |cs| && cs[i].low.num == r.value
  {
    match Prices(Lows(cs))
    case Err(e) => Err(e)
    case Ok(lows) =>
      assert forall i :: 0 <= i < |cs| ==> cs[i].low.num == lows[i];
      MinOf(lows)
  }

  /** The closes as numbers, or the `TypeError` of a text close. */
  function CloseNumbers(cs: seq<Candle>): (r: Result<seq<real>, Error>)
    ensures r.Ok? <==> forall i :: 0 <= i < |cs| ==> cs[i].close.Num?
    ensures r.Err? ==> r.error == TypeError
    ensures r.Ok? ==> |r.value| == |cs| && forall i :: 0 <= i < |cs| ==> r.value[i] == cs[i].close.num
  {
    match Prices(Closes(cs))
    case Err(e) => Err(e)
    case Ok(closes) =>
      assert forall i :: 0 <= i < |cs| ==> Closes(cs)[i] == Num(closes[i]);
      Ok(closes)
  }

  /** Steps 4 to 8 of `combined_data`: the moving averages, the returns, the
      52-week extremes, `extra_info` and `latest_candle`, added to the
      `ltpData` answer `quote`. */
  function BuildReport(quote: Response<Quote>, s: Scrip, cs: seq<Candle>): (r: Result<Report, Error>)
    ensures r.Ok? <==> Numeric(cs) && quote.Payload? && |cs| > 0
    ensures Numeric(cs) && quote.NoResponse? ==> r == Err(AttributeError)
    ensures Numeric(cs) && quote.Payload? && |cs| == 0 ==> r == Err(EmptySequence)
    ensures r.Ok? ==> r.value.quote == quote && r.value.latest == Some(cs[|cs| - 1])
    ensures r.Ok? ==>
      && IsTrailingMean(r.value.dma5, CloseNumbers(cs).value, 5)
      && IsTrailingMean(r.value.dma30, CloseNumbers(cs).value, 30)
      && IsTrailingMean(r.value.dma50, CloseNumbers(cs).value, 50)
      && IsTrailingMean(r.value.dma200, CloseNumbers(cs).value, 200)
    ensures r.Ok? ==>
      && IsReturn(r.value.ret1d, CloseNumbers(cs).value, 1)
      && IsReturn(r.value.ret5d, CloseNumbers(cs).value, 5)
      && IsReturn(r.value.ret30d, CloseNumbers(cs).value, 30)
      && IsReturn(r.value.ret1y, CloseNumbers(cs).value, 250)
    ensures r.Ok? ==> Ok(r.value.high52) == High52(cs) && Ok(r.value.low52) == Low52(cs)
    ensures r.Ok? ==> r.value.extra == ExtraInfo(ScripDict(s))
  {
    match CloseNumbers(cs)
    case Err(e) => Err(e)
    case Ok(closes) =>
      assert closes == CloseNumbers(cs).value;
      if quote.NoResponse? then Err(AttributeError)
      else
        match High52(cs)
        case Err(e) => Err(e)
        case Ok(high) =>
          match Low52(cs)
          case Err(e) => Err(e)
          case Ok(low) =>
            Ok(Report(
              quote,
              Dma(closes, 5), Dma(closes, 30), Dma(closes, 50), Dma(closes, 200),
              CalcReturn(closes, 1), CalcReturn(closes, 5), CalcReturn(closes, 30), CalcReturn(closes, 250),
              high, low,
              ExtraInfo(ScripDict(s)),
              Some(cs[|cs| - 1])))
  }

  /** `get_candle_data`'s defaults, which `combined_data` relies on. */
  const DefaultInterval: string := "ONE_DAY"
  const DefaultDays: int := 250

  /** `combined_data()` for the query arguments `search_str` and `exchange`
      at wall-clock minute `now`: resolve, quote, candles, metrics; any
      exception becomes a 400 reply carrying it. */
  function CombinedData(p: Process, w: World, searchStr: string, exchange: string, now: int)
    : (r: (Reply, Process))
    requires Inv(p)
    ensures Inv(r.1)
    ensures p.slot.Some? ==> r.1.slot == p.slot
    ensures var (s, p1) := SearchScripAndExtract(p, w, searchStr, exchange);
      s.Err? ==> r == (BadRequest(s.error), p1)
    // after a successful resolve: the quote, then the candles, then the
    // metrics; the first exception among them is the 400 reply
    ensures var (s, p1) := SearchScripAndExtract(p, w, searchStr, exchange);
      s.Ok? ==>
        var (lr, p2) := FetchLtp(p1, w, exchange, s.value.tradingsymbol, s.value.symboltoken);
        && (lr.Err? ==> r == (BadRequest(lr.error), p2))
        && (lr.Ok? ==>
              var (cr, p3) := GetCandleData(p2, w, exchange, s.value.tradingsymbol, s.value.symboltoken,
                                            DefaultInterval, DefaultDays, now);
              && (cr.Err? ==> r == (BadRequest(cr.error), p3))
              && (cr.Ok? ==>
                    var b := BuildReport(lr.value, s.value, cr.value);
                    r == (if b.Ok? then Json(b.value) else BadRequest(b.error), p3)))
    ensures r.0.Json? ==> r.0.report.latest.Some?
    ensures r.0.Json? ==>
      && "tradingsymbol" in r.0.report.extra
      && r.0.report.extra["tradingsymbol"].Some?
      && EndsWith(r.0.report.extra["tradingsymbol"].value, EqSuffix)
    ensures r.0.Json? ==> forall k :: k in r.0.report.extra ==> (r.0.report.extra[k].Some? <==> k in ScripKeys)
  {
    var (sr, p1) := SearchScripAndExtract(p, w, searchStr, exchange);
    if sr.Err? then (BadRequest(sr.error), p1)
    else
      var s := sr.value;
      var (lr, p2) := FetchLtp(p1, w, exchange, s.tradingsymbol, s.symboltoken);
      if lr.Err? then (BadRequest(lr.error), p2)
      else
        var (cr, p3) := GetCandleData(p2, w, exchange, s.tradingsymbol, s.symboltoken, DefaultInterval, DefaultDays, now);
        if cr.Err? then (BadRequest(cr.error), p3)
        else
          match BuildReport(lr.value, s, cr.value)
          case Err(e) => (BadRequest(e), p3)
          case Ok(report) =>
            ExtraInfoOfScrip(s);
            (Json(report), p3)
  }

  /** An empty candle history cannot produce a report: `max` of no highs
      raises, and the exception becomes the 400 reply. */
  lemma EmptyHistoryIsBadRequest(p: Process, w: World, searchStr: string, exchange: string, now: int)
    requires Inv(p)
    requires var (s, p1) := SearchScripAndExtract(p, w, searchStr, exchange);
      s.Ok? &&
      var (lr, p2) := FetchLtp(p1, w, exchange, s.value.tradingsymbol, s.value.symboltoken);
      lr.Ok? && lr.value.Payload? &&
      GetCandleData(p2, w, exchange, s.value.tradingsymbol, s.value.symboltoken,
                    DefaultInterval, DefaultDays, now).0 == Ok([])
    ensures CombinedData(p, w, searchStr, exchange, now).0 == BadRequest(EmptySequence)
  {
  }

  // ---------------------------------------------------------------------
  // ticker_data

  /** One `WATCHLIST` entry. */
  datatype Stock = Stock(name: string, exchange: string, tradingsymbol: string, symboltoken: string)

  /** `WATCHLIST`, in source order. */
  const Watchlist: seq<Stock> := [
    Stock("RELIANCE", "NSE", "RELIANCE-EQ", "2885"),
    Stock("TCS", "NSE", "TCS-EQ", "11536"),
    Stock("HDFCBANK", "NSE", "HDFCBANK-EQ", "1333"),
    Stock("INFY", "NSE", "INFY-EQ", "1594"),
    Stock("ICICIBANK", "NSE", "ICICIBANK-EQ", "4963"),
    Stock("TATAMOTORS", "NSE", "TATAMOTORS-EQ", "3456"),
    Stock("BHARTIARTL", "NSE", "BHARTIARTL-EQ", "10604"),
    Stock("MARUTI", "NSE", "MARUTI-EQ", "10999"),
    Stock("ITC", "NSE", "ITC-EQ", "1660"),
    Stock("KOTAKBANK", "NSE", "KOTAKBANK-EQ", "10847"),
    Stock("SBIN", "NSE", "SBIN-EQ", "3045"),
    Stock("HCLTECH", "NSE", "HCLTECH-EQ", "7229"),
    Stock("AXISBANK", "NSE", "AXISBANK-EQ", "212"),
    Stock("SUNPHARMA", "NSE", "SUNPHARMA-EQ", "1348"),
    Stock("LT", "NSE", "LT-EQ", "11483")]

  /** One element of the `ticker_data` reply. */
  datatype TickerEntry = TickerEntry(name: string, ltp: real, changePercent: real)

  /** `((ltp - close) / close * 100) if close != 0 else 0`. */
  function ChangePercent(ltp: real, close: real): (r: real)
    ensures close != 0.0 ==> r * close == (ltp - close) * 100.0
    ensures close == 0.0 ==> r == 0.0
    ensures close > 0.0 ==> (r > 0.0 <==> ltp > close)
  {
    if close != 0.0 then (ltp - close) / close * 100.0 else 0.0
  }

  /** `dict.get(key, default)` on a quote. */
  function QuoteGet(q: Quote, key: string, default: real): real {
    if key in q then q[key] else default
  }

  /** The body of the `try` after `fetch_ltp` returned `resp`:
      `resp.get("data", {})` fails on `None` and so does `.get` on a `null`
      data entry; a missing `ltp` counts as 0 and a missing `close` as 1. */
  function QuoteEntry(name: string, resp: Response<Quote>): (r: Option<TickerEntry>)
    ensures r.None? <==> resp.NoResponse? || resp.data.Null?
    ensures r.Some? ==> r.value.name == name
    ensures resp == Payload(Absent) ==> r == Some(TickerEntry(name, 0.0, -100.0))
    ensures resp.Payload? && resp.data.Present? ==>
      var q := resp.data.value;
      && r.value.ltp == QuoteGet(q, "ltp", 0.0)
      && ("close" !in q ==> r.value.changePercent == (r.value.ltp - 1.0) * 100.0)
      && ("close" in q && q["close"] == 0.0 ==> r.value.changePercent == 0.0)
      && ("close" in q && q["close"] != 0.0 ==>
            r.value.changePercent * q["close"] == (r.value.ltp - q["close"]) * 100.0)
  {
    match resp
    case NoResponse => None
    case Payload(Null) => None
    case Payload(Absent) => Some(TickerEntry(name, 0.0, ChangePercent(0.0, 1.0)))
    case Payload(Present(q)) =>
      var ltp := QuoteGet(q, "ltp", 0.0);
      var close := QuoteGet(q, "close", 1.0);
      Some(TickerEntry(name, ltp, ChangePercent(ltp, close)))
  }

  /** One turn of the loop: fetch the quote of `stock`; any exception skips
      the stock. */
  function TickerStep(p: Process, w: World, stock: Stock): (r: (Option<TickerEntry>, Process))
    ensures r.0.Some? ==> r.0.value.name == stock.name
    ensures var (f, p1) := FetchLtp(p, w, stock.exchange, stock.tradingsymbol, stock.symboltoken);
      && r.1 == p1
      && (f.Err? ==> r.0.None?)
      && (f.Ok? ==> r.0 == QuoteEntry(stock.name, f.value))
    ensures r.1.memo == p.memo && r.1.searches == p.searches
    ensures p.slot.Some? ==> r.1.slot == p.slot
  {
    var (f, p1) := FetchLtp(p, w, stock.exchange, stock.tradingsymbol, stock.symboltoken);
    match f
    case Err(_) => (None, p1)
    case Ok(resp) => (QuoteEntry(stock.name, resp), p1)
  }

  function Names(es: seq<TickerEntry>): seq<string> {
    seq(|es|, i requires 0 <= i < |es| => es[i].name)
  }

  function StockNames(ss: seq<Stock>): seq<string> {
    seq(|ss|, i requires 0 <= i < |ss| => ss[i].name)
  }

  lemma NamesCons(e: TickerEntry, es: seq<TickerEntry>)
    ensures Names([e] + es) == [e.name] + Names(es)
  {
    assert forall i :: 1 <= i <= |es| ==> ([e] + es)[i] == es[i - 1];
  }

  lemma StockNamesCons(ss: seq<Stock>)
    requires |ss| > 0
    ensures StockNames(ss) == [ss[0].name] + StockNames(ss[1..])
  {
    assert forall i :: 1 <= i < |ss| ==> ss[i] == ss[1..][i - 1];
  }

  /** `a` is `b` with some elements left out, the rest in order. */
  ghost predicate IsSubsequence<T>(a: seq<T>, b: seq<T>)
    decreases |b|
  {
    |a| == 0 || (|b| > 0 && ((a[0] == b[0] && IsSubsequence(a[1..], b[1..])) || IsSubsequence(a, b[1..])))
  }

  /** The loop of `ticker_data` over `stocks`, as a recursion. */
  function Ticker(p: Process, w: World, stocks: seq<Stock>): (r: (seq<TickerEntry>, Process))
    ensures |r.0| <= |stocks|
    ensures IsSubsequence(Names(r.0), StockNames(stocks))
    ensures r.1.memo == p.memo && r.1.searches == p.searches
    ensures p.slot.Some? ==> r.1.slot == p.slot
    decreases |stocks|
  {
    if |stocks| == 0 then ([], p)
    else
      var (e, p1) := TickerStep(p, w, stocks[0]);
      var (es, p2) := Ticker(p1, w, stocks[1..]);
      var out := if e.Some? then [e.value] + es else es;
      assert StockNames(stocks)[1..] == StockNames(stocks[1..]);
      assert e.Some? ==> Names(out)[1..] == Names(es) && Names(out)[0] == StockNames(stocks)[0];
      assert e.None? ==> Names(out) == Names(es);
      (out, p2)
  }

  /** One turn of the loop: the first stock's entry, if any, ahead of the
      entries of the rest, which start from the state that turn left. */
  lemma TickerUnfold(p: Process, w: World, stocks: seq<Stock>)
    requires |stocks| > 0
    ensures var (e, p1) := TickerStep(p, w, stocks[0]);
      var rest := Ticker(p1, w, stocks[1..]);
      Ticker(p, w, stocks) == (if e.Some? then [e.value] + rest.0 else rest.0, rest.1)
  {
  }

  /** Every quote answer carries a `data` dict. */
  ghost predicate AllQuotesPresent(w: World) {
    forall n, ex, ts, tok :: w.ltp(n, ex, ts, tok).Returned? &&
      w.ltp(n, ex, ts, tok).value.Payload? && w.ltp(n, ex, ts, tok).value.data.Present?
  }

  /** One turn when the client can be had and every quote arrives: the
      stock gets its entry and the client stays in the slot. */
  lemma StepAnswered(p: Process, w: World, st: Stock)
    requires p.slot.Some? || w.login(p.logins).Returned?
    requires AllQuotesPresent(w)
    ensures var (e, p1) := TickerStep(p, w, st);
      e.Some? && e.value.name == st.name && p1.slot.Some?
  {
    var (c, _) := GetApiObject(p, w);
    assert c.Ok?;
    var (f, _) := FetchLtp(p, w, st.exchange, st.tradingsymbol, st.symboltoken);
    assert f.Ok? && f.value.Payload? && f.value.data.Present?;
  }

  /** No stock is dropped when the client can be had and every quote
      arrives: the reply names every stock, in order. */
  lemma {:induction false} TickerKeepsAnsweredStocks(p: Process, w: World, stocks: seq<Stock>)
    requires p.slot.Some? || w.login(p.logins).Returned?
    requires AllQuotesPresent(w)
    ensures Names(Ticker(p, w, stocks).0) == StockNames(stocks)
    decreases |stocks|
  {
    if |stocks| > 0 {
      var st := stocks[0];
      var (e, p1) := TickerStep(p, w, st);
      StepAnswered(p, w, st);
      TickerKeepsAnsweredStocks(p1, w, stocks[1..]);
      TickerUnfold(p, w, stocks);
      StockNamesCons(stocks);
      NamesCons(e.value, Ticker(p1, w, stocks[1..]).0);
    }
  }

  /** The names of the stocks whose quote yields an entry, when the
      quotes of `stocks` are the `ltpData` calls numbered `n`, `n + 1`, …:
      the call returns, and its answer is neither `None` nor `"data": null`. */
  ghost function Answered(w: World, n: nat, stocks: seq<Stock>): seq<string>
    decreases |stocks|
  {
    if |stocks| == 0 then []
    else
      var st := stocks[0];
      var o := w.ltp(n, st.exchange, st.tradingsymbol, st.symboltoken);
      (if o.Returned? && QuoteEntry(st.name, o.value).Some? then [st.name] else [])
        + Answered(w, n + 1, stocks[1..])
  }

  /** One turn when a client is at hand or the login works: the turn
      makes the next `ltpData` call, leaves a client in the slot, and yields
      an entry exactly when that call returns an answer that gives one. */
  lemma StepWithClient(p: Process, w: World, st: Stock)
    requires p.slot.Some? || w.login(p.logins).Returned?
    ensures var (e, p1) := TickerStep(p, w, st);
      var o := w.ltp(p.quotes, st.exchange, st.tradingsymbol, st.symboltoken);
      && p1.slot.Some? && p1.quotes == p.quotes + 1
      && e == (if o.Returned? then QuoteEntry(st.name, o.value) else None)
  {
  }

  /** A failed stock is skipped and the loop goes on: with a client at hand
      or a login that works, the entries name exactly the stocks whose quote
      yields one, in order. */
  lemma {:induction false} TickerSkipsOnlyFailures(p: Process, w: World, stocks: seq<Stock>)
    requires p.slot.Some? || w.login(p.logins).Returned?
    ensures Names(Ticker(p, w, stocks).0) == Answered(w, p.quotes, stocks)
    decreases |stocks|
  {
    if |stocks| > 0 {
      var st := stocks[0];
      var (e, p1) := TickerStep(p, w, st);
      StepWithClient(p, w, st);
      TickerUnfold(p, w, stocks);
      TickerSkipsOnlyFailures(p1, w, stocks[1..]);
      if e.Some? {
        NamesCons(e.value, Ticker(p1, w, stocks[1..]).0);
      }
    }
  }

  /** Without a client, a login that raises costs only the current stock:
      the loop goes on with the next one, which logs in afresh. */
  lemma FailedLoginSkipsStock(p: Process, w: World, stocks: seq<Stock>)
    requires |stocks| > 0 && p.slot.None? && w.login(p.logins).Raised?
    ensures Ticker(p, w, stocks) == Ticker(p.(logins := p.logins + 1), w, stocks[1..])
  {
    TickerUnfold(p, w, stocks);
  }

  /** The first ticker request of a fresh process with a working login
      names exactly the watchlist stocks whose quote yields an entry. */
  lemma FreshTicker(w: World)
    requires w.login(0).Returned?
    ensures Names(Ticker(Boot(), w, Watchlist).0) == Answered(w, 0, Watchlist)
  {
    TickerSkipsOnlyFailures(Boot(), w, Watchlist);
  }

  /** The loop of `ticker_data` over `stocks`: one `TickerStep` per stock,
      in order, keeping the entries of the stocks that did not fail. */
  method TickerLoop(p: Process, w: World, stocks: seq<Stock>) returns (entries: seq<TickerEntry>, q: Process)
    ensures (entries, q) == Ticker(p, w, stocks)
  {
    entries := [];
    q := p;
    var rest := stocks;
    assert entries + Ticker(q, w, rest).0 == Ticker(q, w, rest).0;
    while |rest| > 0
      invariant Ticker(p, w, stocks) == (entries + Ticker(q, w, rest).0, Ticker(q, w, rest).1)
      decreases |rest|
    {
      var (e, q1) := TickerStep(q, w, rest[0]);
      TickerUnfold(q, w, rest);
      ghost var after := Ticker(q1, w, rest[1..]);
      if e.Some? {
        assert entries + ([e.value] + after.0) == (entries + [e.value]) + after.0;
        entries := entries + [e.value];
      }
      q := q1;
      rest := rest[1..];
    }
    assert entries + [] == entries;
  }

  /** `ticker_data()`: at most one entry per `WATCHLIST` stock, in
      watchlist order; the memo and the searches are untouched. */
  method TickerData(p: Process, w: World) returns (entries: seq<TickerEntry>, q: Process)
    ensures (entries, q) == Ticker(p, w, Watchlist)
    ensures |entries| <= 15
    ensures IsSubsequence(Names(entries), StockNames(Watchlist))
    ensures q.memo == p.memo && q.searches == p.searches
    ensures p.slot.Some? ==> q.slot == p.slot
    ensures (p.slot.Some? || w.login(p.logins).Returned?) && AllQuotesPresent(w) ==>
      Names(entries) == StockNames(Watchlist)
    ensures p.slot.Some? || w.login(p.logins).Returned? ==>
      Names(entries) == Answered(w, p.quotes, Watchlist)
  {
    entries, q := TickerLoop(p, w, Watchlist);
    if p.slot.Some? || w.login(p.logins).Returned? {
      TickerSkipsOnlyFailures(p, w, Watchlist);
    }
    if (p.slot.Some? || w.login(p.logins).Returned?) && AllQuotesPresent(w) {
      TickerKeepsAnsweredStocks(p, w, Watchlist);
    }
  }
}
