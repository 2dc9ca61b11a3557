/** The broker SDK (`SmartConnect`) as the modelled code sees it. Its calls
    go over the network, so the model does not compute them: a `World` says
    what the upstream answers to the n-th call of each endpoint, and the
    process state counts how many calls of each kind were made. */
module Upstream {

  /** The `SmartConnect` object built just before the `serial`-th login
      attempt of the process. */
  datatype Client = Client(serial: nat)

  /** One entry of a response dict: missing, JSON `null`, or a value. */
  datatype Field<+T> = Absent | Null | Present(value: T)

  /** What an SDK data call returns: Python `None`, or a dict whose `"data"`
      entry is `data`. An empty dict `{}` is `Payload(Absent)`. */
  datatype Response<+T> = NoResponse | Payload(data: Field<T>)

  /** One SDK call either raised an exception with a message or returned. */
  datatype Outcome<+T> = Raised(msg: string) | Returned(value: T)

  /** What `generateSession` returns; the modelled code never looks at it. */
  datatype LoginReply = LoginReply(status: bool, message: string)

  /** One instrument of a `searchScrip` answer: a dict of string fields
      (`exchange`, `tradingsymbol`, `symboltoken`, ...). */
  type SearchItem = map<string, string>

  /** The `"data"` dict of an `ltpData` answer (`ltp`, `close`, ...). */
  type Quote = map<string, real>

  /** One element of a candle row: the timestamp text or a number. */
  datatype Cell = Text(text: string) | Num(num: real)

  /** One candle row as the provider sends it:
      `[timestamp, open, high, low, close, volume]`. */
  type Row = seq<Cell>

  /** The parameters of one `getCandleData` call; times are minutes on the
      wall clock of the process. */
  datatype CandleQuery = CandleQuery(
    exchange: string,
    symboltoken: string,
    interval: string,
    fromTime: int,
    toTime: int)

  /** The upstream's answer to the n-th call of each endpoint:
      `login(n)` for the n-th `generateSession` (credentials and one-time
      password included), `search(n, exchange, query)` for the n-th
      `searchScrip`, `ltp(n, exchange, tradingsymbol, symboltoken)` for the
      n-th `ltpData`, `candles(n, query)` for the n-th `getCandleData`. */
  datatype World = World(
    login: nat -> Outcome<LoginReply>,
    search: (nat, string, string) -> Outcome<Response<seq<SearchItem>>>,
    ltp: (nat, string, string, string) -> Outcome<Response<Quote>>,
    candles: (nat, CandleQuery) -> Outcome<Response<seq<Row>>>)
}
