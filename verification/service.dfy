/** `services/smartapi_service.py`: the process-wide client slot
    (`get_api_object`), the memoized scrip resolver
    (`search_scrip_and_extract` under `lru_cache(maxsize=1000)`) and the
    `fetch_ltp` wrapper the controllers call. */
module Service {
  import opened Wrappers
  import opened Upstream
  import opened Scrips
  import Lru

  /** The memo key: the positional arguments `(search_str, exchange)`,
      compared exactly, with no case or whitespace normalisation. */
  type Key = (string, string)

  /** `maxsize` of the resolver's `lru_cache`. */
  const MemoSize: nat := 1000

  /** The module-level state of the service, plus counters of the upstream
      calls made so far (the n-th call of an endpoint gets the World's n-th
      answer). */
  datatype Process = Process(
    slot: Option<Client>,            // `_cached_obj`
    memo: Lru.Cache<Key, Scrip>,     // the resolver's `lru_cache`
    logins: nat,                     // `generateSession` calls so far
    searches: nat,                   // `searchScrip` calls so far
    quotes: nat,                     // `ltpData` calls so far
    candleFetches: nat)              // `getCandleData` calls so far

  /** The state right after import: empty slot, empty memo, no calls. */
  function Boot(): (p: Process)
    ensures Inv(p) && p.slot == None && p.memo.entries == map[]
    ensures p.logins == 0 && p.searches == 0 && p.quotes == 0 && p.candleFetches == 0
  {
    Process(None, Lru.Empty(), 0, 0, 0, 0)
  }

  /** What every reachable state satisfies: the memo is a valid LRU table of
      at most `MemoSize` entries, and it only ever stores `-EQ` triples. */
  ghost predicate Inv(p: Process) {
    && Lru.Valid(p.memo, MemoSize)
    && forall k :: k in p.memo.entries ==> EndsWith(p.memo.entries[k].tradingsymbol, EqSuffix)
  }

  /** `get_api_object`: return the stored client; when the slot is empty,
      build client number `logins`, log it in, and store it only if the
      login did not raise. The login reply is not inspected. */
  function GetApiObject(p: Process, w: World): (r: (Result<Client, Error>, Process))
    ensures p.slot.Some? ==> r.0 == Ok(p.slot.value) && r.1 == p
    ensures p.slot.None? ==> r.1.logins == p.logins + 1
    ensures r.1 == p.(slot := r.1.slot, logins := r.1.logins)
    ensures r.0.Ok? ==> r.1.slot == Some(r.0.value)
    ensures r.0.Err? ==> r.1.slot == None && r.1.slot == p.slot
    ensures p.slot.None? ==>
      (r.0.Ok? <==> w.login(p.logins).Returned?)
    ensures p.slot.None? && w.login(p.logins).Returned? ==> r.0 == Ok(Client(p.logins))
    ensures p.slot.None? && w.login(p.logins).Raised? ==>
      r.0 == Err(SdkError(w.login(p.logins).msg))
  {
    if p.slot.Some? then (Ok(p.slot.value), p)
    else
      var obj := Client(p.logins);
      var p' := p.(logins := p.logins + 1);
      match w.login(p.logins)
      case Raised(msg) => (Err(SdkError(msg)), p')
      case Returned(_) => (Ok(obj), p'.(slot := Some(obj)))
  }

  /** `n` successive calls of `get_api_object`, with their results. */
  function GetApiObjectRepeated(p: Process, w: World, n: nat): (r: (seq<Result<Client, Error>>, Process))
    ensures |r.0| == n
    decreases n
  {
    if n == 0 then ([], p)
    else
      var (x, p1) := GetApiObject(p, w);
      var (xs, p2) := GetApiObjectRepeated(p1, w, n - 1);
      ([x] + xs, p2)
  }

  /** Once the slot holds a client, every later call returns that same
      client and logs in no more. */
  lemma {:induction false} StoredClientIsReused(p: Process, w: World, n: nat)
    requires p.slot.Some?
    ensures GetApiObjectRepeated(p, w, n).1 == p
    ensures forall i :: 0 <= i < n ==> GetApiObjectRepeated(p, w, n).0[i] == Ok(p.slot.value)
  {
    if n > 0 {
      StoredClientIsReused(p, w, n - 1);
    }
  }

  /** From an empty slot, a first login that does not raise is the only
      login of the run: every call returns the client it built. */
  lemma SingleLogin(p: Process, w: World, n: nat)
    requires p.slot.None? && n > 0 && w.login(p.logins).Returned?
    ensures GetApiObjectRepeated(p, w, n).1.logins == p.logins + 1
    ensures GetApiObjectRepeated(p, w, n).1.slot == Some(Client(p.logins))
    ensures forall i :: 0 <= i < n ==> GetApiObjectRepeated(p, w, n).0[i] == Ok(Client(p.logins))
  {
    var p1 := GetApiObject(p, w).1;
    StoredClientIsReused(p1, w, n - 1);
  }

  /** A login that raises leaves the slot empty, so the next call builds a
      new client and logs in again. */
  lemma FailedLoginIsRetried(p: Process, w: World)
    requires p.slot.None? && w.login(p.logins).Raised?
    ensures var p1 := GetApiObject(p, w).1;
      p1.slot == None &&
      GetApiObject(p1, w).1.logins == p.logins + 2 &&
      (w.login(p.logins + 1).Returned? ==> GetApiObject(p1, w).0 == Ok(Client(p.logins + 1)))
  {
  }

  /** The login reply is never looked at: two upstreams whose login returns
      (with any reply, an error payload included) give the same result and
      the same state. */
  lemma LoginReplyIgnored(p: Process, w: World, w': World)
    requires w.login(p.logins).Returned? && w'.login(p.logins).Returned?
    ensures GetApiObject(p, w) == GetApiObject(p, w')
  {
  }

  /** `search_scrip_and_extract(search_str, exchange)` behind its
      `lru_cache`: a stored triple is returned without touching the
      upstream; otherwise the client is obtained, `searchScrip` called once,
      its answer reduced by `Extract`, and only a normal result is stored. */
  function SearchScripAndExtract(p: Process, w: World, searchStr: string, exchange: string)
    : (r: (Result<Scrip, Error>, Process))
    requires Inv(p)
    ensures Inv(r.1)
    ensures r.0.Ok? ==> EndsWith(r.0.value.tradingsymbol, EqSuffix)
    // a hit: the stored triple, no login and no search
    ensures (searchStr, exchange) in p.memo.entries ==>
      && r.0 == Ok(p.memo.entries[(searchStr, exchange)])
      && r.1 == p.(memo := r.1.memo)
      && r.1.memo.entries == p.memo.entries
    // a miss: exactly one search once a client is at hand
    ensures (searchStr, exchange) !in p.memo.entries ==>
      var (c, p1) := GetApiObject(p, w);
      && (c.Err? ==> r == (Err(c.error), p1))
      && (c.Ok? ==> r.1.searches == p.searches + 1 && r.1.logins == p1.logins && r.1.slot == p1.slot)
      && (c.Ok? ==> r.0 == ExtractOutcome(w.search(p.searches, exchange, searchStr)))
    // failures are not memoized; successes are
    ensures r.0.Err? ==> r.1.memo == p.memo
    ensures r.0.Ok? ==>
      (searchStr, exchange) in r.1.memo.entries && r.1.memo.entries[(searchStr, exchange)] == r.0.value
    // a hit or a stored success becomes the most recently used key
    ensures r.0.Ok? ==> |r.1.memo.order| > 0 && r.1.memo.order[|r.1.memo.order| - 1] == (searchStr, exchange)
    // other stored triples survive; only the least recently used one can
    // be evicted, and only from a full table
    ensures forall k :: k in r.1.memo.entries && k != (searchStr, exchange) ==>
      k in p.memo.entries && r.1.memo.entries[k] == p.memo.entries[k]
    ensures forall k :: k in p.memo.entries && (|p.memo.order| < MemoSize || k != p.memo.order[0]) ==>
      k in r.1.memo.entries && r.1.memo.entries[k] == p.memo.entries[k]
    ensures r.1.quotes == p.quotes && r.1.candleFetches == p.candleFetches
  {
    var key := (searchStr, exchange);
    if key in p.memo.entries then
      (Ok(p.memo.entries[key]), p.(memo := Lru.Touch(p.memo, key, MemoSize)))
    else
      var (c, p1) := GetApiObject(p, w);
      if c.Err? then (Err(c.error), p1)
      else
        var p2 := p1.(searches := p1.searches + 1);
        match ExtractOutcome(w.search(p1.searches, exchange, searchStr))
        case Err(e) => (Err(e), p2)
        case Ok(s) => (Ok(s), p2.(memo := Lru.Insert(p2.memo, key, s, MemoSize)))
  }

  /** The `try` around `searchScrip`: an exception is re-raised unchanged,
      an answer goes through `Extract`. */
  function ExtractOutcome(o: Outcome<Response<seq<SearchItem>>>): (r: Result<Scrip, Error>)
    ensures o.Raised? ==> r == Err(SdkError(o.msg))
    ensures o.Returned? ==> r == Extract(o.value)
    ensures r.Ok? ==> EndsWith(r.value.tradingsymbol, EqSuffix)
  {
    match o
    case Raised(msg) => Err(SdkError(msg))
    case Returned(resp) => Extract(resp)
  }

  /** A second call with the same key returns the identical triple, whatever
      the upstream would now answer, with no new login or search. */
  lemma RepeatedSearchIsMemoized(p: Process, w: World, w': World, searchStr: string, exchange: string)
    requires Inv(p)
    ensures var (r1, p1) := SearchScripAndExtract(p, w, searchStr, exchange);
      r1.Ok? ==>
        var (r2, p2) := SearchScripAndExtract(p1, w', searchStr, exchange);
        r2 == r1 && p2.searches == p1.searches && p2.logins == p1.logins && p2.slot == p1.slot
  {
  }

  /** The memo never holds more than 1000 entries. */
  lemma MemoBounded(p: Process)
    requires Inv(p)
    ensures |p.memo.entries| <= MemoSize
  {
    Lru.SizeBound(p.memo, MemoSize);
  }

  /** `fetch_ltp`: obtain the client, then one `ltpData` call; its exception
      is passed on, its answer returned as is. */
  function FetchLtp(p: Process, w: World, exchange: string, tradingsymbol: string, symboltoken: string)
    : (r: (Result<Response<Quote>, Error>, Process))
    ensures var (c, p1) := GetApiObject(p, w);
      && (c.Err? ==> r == (Err(c.error), p1))
      && (c.Ok? ==> r.1 == p1.(quotes := p.quotes + 1))
      && (c.Ok? && w.ltp(p.quotes, exchange, tradingsymbol, symboltoken).Raised? ==>
            r.0 == Err(SdkError(w.ltp(p.quotes, exchange, tradingsymbol, symboltoken).msg)))
      && (c.Ok? && w.ltp(p.quotes, exchange, tradingsymbol, symboltoken).Returned? ==>
            r.0 == Ok(w.ltp(p.quotes, exchange, tradingsymbol, symboltoken).value))
    ensures r.1.memo == p.memo && r.1.searches == p.searches && r.1.candleFetches == p.candleFetches
    ensures p.slot.Some? ==> r.1.slot == p.slot
  {
    var (c, p1) := GetApiObject(p, w);
    if c.Err? then (Err(c.error), p1)
    else
      var p2 := p1.(quotes := p1.quotes + 1);
      match w.ltp(p1.quotes, exchange, tradingsymbol, symboltoken)
      case Raised(msg) => (Err(SdkError(msg)), p2)
      case Returned(resp) => (Ok(resp), p2)
  }
}
