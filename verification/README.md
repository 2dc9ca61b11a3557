# FinBizNet market-data service, modelled in Dafny

This project models the logic of a small Flask service. The service sits in
front of the Angel One SmartAPI broker SDK (`SmartConnect`). It covers three
pieces of that service:

- **The lazy client slot.** `get_api_object` keeps one process-wide
  `SmartConnect` object in `_cached_obj`. A call that finds the slot empty
  builds a client and logs it in, and stores it only if `generateSession`
  does not raise. Once the slot is filled, every later call returns the
  stored object.
- **The memoized scrip resolver.** `search_scrip_and_extract` sits behind
  `lru_cache(maxsize=1000)`. It calls `searchScrip`, rejects an empty or
  malformed answer, picks the first instrument whose `tradingsymbol` ends in
  `-EQ`, and returns its `{exchange, tradingsymbol, symboltoken}` triple.
- **Candle parsing and derived metrics.** `get_candle_data` maps candle rows
  to records. `combined_data` computes the 5/30/50/200-day moving averages,
  the 1D/5D/30D/1Y returns and the 52-week high and low, and copies the
  resolver's fields into the reply. `ticker_data` builds the watchlist
  ticker and skips the stocks whose quote fails.

The SDK is not computed. A `World` value says what the upstream answers to
the n-th call of each endpoint (`generateSession`, `searchScrip`, `ltpData`,
`getCandleData`). The process state (`Service.Process`) holds the client
slot and the memo table, and counts the calls made so far. A statement like
"no new search" is therefore a statement about a counter. Prices are exact
`real`s. Python exceptions are values of `Wrappers.Error`; an exception the
SDK raises is `SdkError` with its message unchanged.

Modules, one per file: `Wrappers` (Option, Result, exception kinds), `Lru`
(the LRU memo table), `Upstream` (SDK shapes and the `World`), `Scrips` (the
pure `-EQ` selection), `Service` (`services/smartapi_service.py`), `Candles`,
`Metrics` and `Controllers` (`controllers/smartapi_controllers.py`).

`get_api_object` has no expiry check, no forced renewal and no retry after
an "Invalid Token" error, and there is no token-only resolver. The client
slot is never cleared or replaced once filled.

## Model

| member | source | states |
|---|---|---|
| `Service.Boot` | services/smartapi_service.py:8 | The process starts with an empty slot, an empty memo table and no upstream calls, and satisfies the state invariant. |
| `Service.GetApiObject` | services/smartapi_service.py:10-17 | With a client in the slot it returns that client and changes nothing. With an empty slot it makes exactly one login attempt, using client number `logins`. A login that returns stores and returns that client, whatever the reply says. A login that raises leaves the slot empty and passes the SDK error on. Nothing but the slot and the login count changes. |
| `Service.StoredClientIsReused` | services/smartapi_service.py:12-17 | Once the slot is filled, any number of further calls all return the stored client and leave the state, including the login count, unchanged. |
| `Service.SingleLogin` | services/smartapi_service.py:12-17 | From an empty slot, if the first login does not raise, a run of n calls logs in exactly once and every call returns the client built by that login. |
| `Service.FailedLoginIsRetried` | services/smartapi_service.py:15-16 | A login that raises leaves the slot empty, so the next call logs in again with a new client. |
| `Service.LoginReplyIgnored` | services/smartapi_service.py:15-16 | Any two logins that return, whatever their replies (an error payload included), give the same client and the same state. |
| `Service.SearchScripAndExtract` | services/smartapi_service.py:20-48 | A memo hit returns the stored triple with no login and no search. A miss gets the client first; if that fails, its error is returned and nothing else happens. Otherwise exactly one `searchScrip` call is made and its outcome decides the result. Failures are never stored; a success is stored under the exact `(search_str, exchange)` key. Every other stored triple survives unchanged, except that the least recently used one is evicted when the table is full. A hit or a stored success becomes the most recently used key. Every returned `tradingsymbol` ends in `-EQ`. The state invariant is preserved. |
| `Service.ExtractOutcome` | services/smartapi_service.py:25-30 | An exception from `searchScrip` is re-raised with its message unchanged. An answer goes through the `-EQ` selection. |
| `Service.RepeatedSearchIsMemoized` | services/smartapi_service.py:20-21 | After a successful lookup, a second call with the same key returns the identical triple, whatever the upstream would answer now, with no new login or search. |
| `Service.MemoBounded` | services/smartapi_service.py:20 | In every state satisfying the invariant, the memo table holds at most 1000 entries. |
| `Service.FetchLtp` | services/smartapi_service.py:55-57 | Gets the client, then makes exactly one `ltpData` call whose exception is passed on and whose answer is returned as is. The memo table is untouched. |
| `Lru.Touch` | services/smartapi_service.py:20 | A cache hit keeps every stored result, keeps the table valid, and makes the key the most recently used. |
| `Lru.Insert` | services/smartapi_service.py:20 | Storing a new result keeps the table valid within its capacity and maps the key to the result. It keeps every other stored entry unchanged, except the least recently used one, which is dropped only when the table was full. |
| `Lru.SizeBound` | services/smartapi_service.py:20 | A valid table never holds more entries than its capacity. |
| `Scrips.FirstEq` | services/smartapi_service.py:36-39 | The generator stops at the first item whose `tradingsymbol` ends in `-EQ`, after every earlier item was tested and rejected. It gives `None` exactly when every item has a non-`-EQ` `tradingsymbol`. It raises `KeyError('tradingsymbol')` exactly when an item tested before any match has no `tradingsymbol`. |
| `Scrips.FirstEqFindsFirstEqAt` | services/smartapi_service.py:36-39 | If item j ends in `-EQ` and every earlier item was tested and rejected, the generator stops exactly at j. The result is fixed by upstream order. |
| `Scrips.Project` | services/smartapi_service.py:44-48 | The triple is built only when the item has `exchange`, `tradingsymbol` and `symboltoken`, and carries those three values. Otherwise the `KeyError` names the first missing key in the order `exchange`, `tradingsymbol`, `symboltoken`. |
| `Scrips.Extract` | services/smartapi_service.py:32-48 | "No matching scrip found" is raised exactly when the answer is falsy, lacks `data`, or has empty `data`. "Matching EQ tradingsymbol not found" is raised exactly when the answer has items and none ends in `-EQ`. Whenever the answer has a first `-EQ` item (every earlier item tested and rejected), the result is that item's projection, so a success's `tradingsymbol` ends in `-EQ`. An item without `tradingsymbol` tested before any match raises `KeyError('tradingsymbol')`. |
| `Scrips.PrefersEquityListing` | services/smartapi_service.py:35-39 | Given `RELIANCE-BE` followed by `RELIANCE-EQ`, the resolver returns the `RELIANCE-EQ` triple. |
| `Candles.ParseRows` | controllers/smartapi_controllers.py:29-40 | Parsing succeeds exactly when every row has at least six elements; otherwise it raises `IndexError`. The result has the input's length and order, and record i holds row i's elements 0..5 as `datetime, open, high, low, close, volume`. |
| `Candles.ParseRowsRoundTrip` | controllers/smartapi_controllers.py:29-40 | Records written back as six-element rows parse back to the same records. |
| `Candles.CandleParams` | controllers/smartapi_controllers.py:13-23 | The query is for the given exchange, symbol token and interval, and covers the `days` days before `now`, ending at `now`. |
| `Candles.CandleRows` | controllers/smartapi_controllers.py:25-27 | "No candle data received" is raised exactly when the answer is falsy or has no `"data"` key. Rows come back only from a present `data` entry. `"data": null` cannot be iterated and raises `TypeError`. An SDK exception is passed on unchanged. |
| `Candles.GetCandleData` | controllers/smartapi_controllers.py:10-44 | Gets the client (and fails as it does), then makes exactly one `getCandleData` call. An exception from that call is passed on unchanged. A falsy or data-less answer raises "No candle data received", and `"data": null` raises `TypeError`; every such error of the answer is the result. When rows come back, the result is exactly their parse, and a success comes only that way. The memo table, searches and quotes are untouched. |
| `Candles.CandlesArriveIntact` | controllers/smartapi_controllers.py:25-40 | When the upstream answers with the rows of some records, `get_candle_data` returns exactly those records. |
| `Metrics.Dma` | controllers/smartapi_controllers.py:65-68 | `DMA_n` is present exactly when there are at least n closes, and then n times it equals the sum of the last n closes. |
| `Metrics.DmaWithinWindow` | controllers/smartapi_controllers.py:65-68 | A moving average lies between the lowest and the highest close of its window. |
| `Metrics.DmaIgnoresHistory` | controllers/smartapi_controllers.py:65-68 | Closes older than the window do not change the average. |
| `Metrics.CalcReturn` | controllers/smartapi_controllers.py:71-76 | The return is absent exactly when there are fewer than `days` closes or the close `days` from the end is 0. Otherwise it is the percentage change from that close to the last close. |
| `Metrics.OneDayReturnIsZero` | controllers/smartapi_controllers.py:71-84 | `calc_return(1)` compares the last close with itself: `1D%` is 0 when the last close is non-zero, and absent otherwise. |
| `Metrics.ReturnSign` | controllers/smartapi_controllers.py:71-76 | Against a positive past close, the return is positive exactly when the price rose and negative exactly when it fell. |
| `Metrics.MaxNonEmpty` | controllers/smartapi_controllers.py:88 | The maximum of a non-empty sequence is at least every element and equals one of them. |
| `Metrics.MinNonEmpty` | controllers/smartapi_controllers.py:89 | The minimum of a non-empty sequence is at most every element and equals one of them. |
| `Metrics.MaxOf` | controllers/smartapi_controllers.py:88 | `max()` raises exactly on an empty sequence; otherwise its result bounds and is one of the elements. |
| `Metrics.MinOf` | controllers/smartapi_controllers.py:89 | `min()` raises exactly on an empty sequence; otherwise its result bounds and is one of the elements. |
| `Metrics.Prices` | controllers/smartapi_controllers.py:62-68 | A column of cells gives its numbers, in order, exactly when every cell is a number; a text cell raises `TypeError`. |
| `Controllers.CloseNumbers` | controllers/smartapi_controllers.py:62 | The closes of the parsed candles, as numbers and in order, or `TypeError` when one is text. |
| `Controllers.High52` | controllers/smartapi_controllers.py:88 | `52W-High` exists exactly when there are candles and all highs are numbers. It is at least every candle's high and equals one of them. With no candles it raises. |
| `Controllers.Low52` | controllers/smartapi_controllers.py:89 | `52W-Low` exists exactly when there are candles and all lows are numbers. It is at most every candle's low and equals one of them. With no candles it raises. |
| `Controllers.ScripDict` | services/smartapi_service.py:44-48 | The resolver's dict has exactly the keys `exchange`, `tradingsymbol` and `symboltoken`. |
| `Controllers.ExtraInfo` | controllers/smartapi_controllers.py:93-105 | `extra_info` has exactly the eleven listed keys. Each key is set exactly when the dict has it, and then to the dict's value. |
| `Controllers.ExtraInfoOfScrip` | controllers/smartapi_controllers.py:93-105 | Built from the resolver's dict, only `symboltoken`, `tradingsymbol` and `exchange` are non-None, and they carry the resolved triple. |
| `Controllers.BuildReport` | controllers/smartapi_controllers.py:62-110 | A report exists exactly when the prices are numbers, the quote answer is not `None` and there is at least one candle. A `None` quote raises `AttributeError`. An empty candle list raises from `max`. On success: the four averages and four returns meet the `DMA_n` and `calc_return` promises for 5/30/50/200 and 1/5/30/250; the 52-week extremes are those of the candles; `extra_info` is built from the triple; `latest_candle` is the last candle. |
| `Controllers.CombinedData` | controllers/smartapi_controllers.py:47-116 | A resolver failure becomes a 400 reply carrying that error. After a successful resolve, a `fetch_ltp` failure, then a `get_candle_data` failure, then a metrics failure becomes the 400 reply, in that order. Otherwise the reply is the report built from the quote and candles actually fetched, with all of that report's guarantees. A successful reply has a `latest_candle`. Its `extra_info` `tradingsymbol` is set and ends in `-EQ`, and only the resolver's three keys are set there. The state invariant is preserved and a filled client slot stays as it was. |
| `Controllers.EmptyHistoryIsBadRequest` | controllers/smartapi_controllers.py:88-89 | When the resolve and the quote succeed and the candle list is empty, `combined_data` answers with the 400 reply of `max()`'s error. |
| `Controllers.ChangePercent` | controllers/smartapi_controllers.py:151 | With a non-zero close, `changePercent` is the percentage change from close to ltp; with close 0 it is 0. Against a positive close it is positive exactly when ltp is above close. |
| `Controllers.QuoteEntry` | controllers/smartapi_controllers.py:146-157 | An entry is dropped exactly when the answer is `None` or its `data` is `null`. A missing `data` gives ltp 0 and change -100. A missing `ltp` counts as 0. A missing `close` counts as 1. A zero `close` gives change 0. |
| `Controllers.TickerStep` | controllers/smartapi_controllers.py:140-161 | One watchlist stock: a failed `fetch_ltp` (client or quote) skips it. A successful one gives exactly the entry its answer yields, under the stock's name. The memo table is untouched. |
| `Controllers.Ticker` | controllers/smartapi_controllers.py:137-162 | The loop keeps at most one entry per stock. The entries' names are a subsequence of the watchlist names, in watchlist order. The memo table and searches are untouched. |
| `Controllers.TickerKeepsAnsweredStocks` | controllers/smartapi_controllers.py:139-161 | When a client can be had and every quote carries a `data` dict, no stock is dropped: the entries name every stock, in order. |
| `Controllers.TickerSkipsOnlyFailures` | controllers/smartapi_controllers.py:139-161 | With a client at hand, or from an empty slot whose next login returns, a failed stock is skipped and the loop goes on. The entries name exactly the stocks whose `ltpData` call returns an answer that is neither `None` nor `"data": null`, in watchlist order. |
| `Controllers.FailedLoginSkipsStock` | controllers/smartapi_controllers.py:139-161 | From an empty slot, a login that raises costs only the current stock: the loop continues with the next stock, which tries a fresh login. |
| `Controllers.FreshTicker` | controllers/smartapi_controllers.py:137-162 | The first ticker request of a fresh process whose first login returns names exactly the watchlist stocks whose quote yields an entry. |
| `Controllers.TickerLoop` | controllers/smartapi_controllers.py:139-161 | The `for` loop with its `continue` computes exactly the recursive `Ticker` over the stock list. |
| `Controllers.TickerData` | controllers/smartapi_controllers.py:137-162 | `ticker_data` returns at most 15 entries, in `WATCHLIST` order. With a client at hand, or from an empty slot whose next login returns, it names exactly the stocks whose quote yields an entry; when every quote carries `data`, that is all 15 stocks. It leaves the memo table and searches untouched and keeps a filled client slot. |

## Left out

- The SmartAPI SDK calls (`generateSession`, `searchScrip`, `ltpData`, `getCandleData`) are network calls into a foreign library. They are the `Upstream.World` oracle, indexed by call number. The `SmartConnect` constructor and `get_totp_token` are assumed not to raise.
- Credential loading (`config/settings.py`) and the one-time password (`utils/totp.py`) are file and `pyotp` plumbing. They are folded into the login oracle's answer.
- `fetch_candle_data`, `fetch_security_info`, `fetch_market_data`, `fetch_option_chain`, `fetch_expiry_list` and `fetch_master_contract` are one-line SDK wrappers that no modelled controller calls. They would only repeat `Service.FetchLtp`.
- Flask request parsing, `jsonify`, routes, `app.py`, `scheduler.py` and `smartapi_test.py` are framework and script wiring. `search_str` and `exchange` are given as strings; the `None` that `request.args.get` returns for a missing argument is not modelled.
- `print` logging has no effect on results.
- `datetime.now()`, `timedelta` and `strftime` are clock and formatting details. The current time is a parameter in minutes, and the query carries the two times as numbers.
- `round()` and `float()` are left out because prices are exact reals. Quote fields are numbers; a quote text that `float()` would parse or reject is not modelled.
- The thread safety of `_cached_obj` and of `lru_cache` is concurrency and out of scope.
- `ltp_data.update(...)` merges dicts in the source. `Controllers.Report` keeps the quote answer and the added fields apart, so a quote key overwritten by an added key of the same name is not modelled. Dict key order is not modelled either.
- `Controllers.BuildReport`, `Controllers.CloseNumbers`, `Controllers.High52`, `Controllers.Low52`, `Metrics.Prices`: these require every close, high and low to be a number before any metric is computed, and raise `TypeError` up front otherwise. Line 62 itself never raises on a text close. The source fails only on a text cell it actually adds, subtracts or compares. An all-text column would even compare as strings in `max`/`min`.
- `Scrips.Extract`: search items are dicts of strings. A non-string `tradingsymbol` (an `AttributeError` in `endswith`) and a non-list `data` entry are not modelled.
- `Candles.ParseRows`: a row that is not a list is not modelled; only too-short rows raise.
