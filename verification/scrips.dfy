/** The pure part of `search_scrip_and_extract`: from one `searchScrip`
    answer, pick the first equity (`-EQ`) instrument and project it to the
    `{exchange, tradingsymbol, symboltoken}` triple. */
module Scrips {
  import opened Wrappers
  import opened Upstream

  /** The triple the resolver returns. */
  datatype Scrip = Scrip(exchange: string, tradingsymbol: string, symboltoken: string)

  const EqSuffix: string := "-EQ"

  /** Python's `s.endswith(suffix)`. */
  predicate EndsWith(s: string, suffix: string) {
    |suffix| <= |s| && s[|s| - |suffix|..] == suffix
  }

  /** `item['tradingsymbol'].endswith('-EQ')` where the key exists. */
  predicate IsEq(item: SearchItem)
    requires "tradingsymbol" in item
  {
    EndsWith(item["tradingsymbol"], EqSuffix)
  }

  /** Items `lo..hi-1` were tested by the generator and rejected: each has a
      `tradingsymbol` and it does not end in `-EQ`. */
  ghost predicate Rejected(items: seq<SearchItem>, lo: nat, hi: nat)
    requires lo <= hi <= |items|
  {
    forall k :: lo <= k < hi ==> "tradingsymbol" in items[k] && !IsEq(items[k])
  }

  /** Index `j` is where `next(...)` stops with a match. */
  ghost predicate FirstEqAt(items: seq<SearchItem>, j: nat)
  {
    j < |items| && Rejected(items, 0, j) && "tradingsymbol" in items[j] && IsEq(items[j])
  }

  /** Item `j` is the first one tested from `from` on that has no
      `tradingsymbol`, so the generator raises there. */
  ghost predicate MissingAt(items: seq<SearchItem>, from: nat, j: nat)
  {
    from <= j < |items| && Rejected(items, from, j) && "tradingsymbol" !in items[j]
  }

  /** Where `next(item for item in items[from..] if ...-EQ, None)` stops:
      the index of the first `-EQ` item, `None` when the generator runs out,
      or the `KeyError` of the first tested item without a `tradingsymbol`. */
  function FirstEq(items: seq<SearchItem>, from: nat): (r: Result<Option<nat>, Error>)
    requires from <= |items|
    decreases |items| - from
    ensures r.Ok? && r.value.Some? ==>
      from <= r.value.value < |items| && Rejected(items, from, r.value.value)
      && "tradingsymbol" in items[r.value.value] && IsEq(items[r.value.value])
    ensures r == Ok(None) <==> Rejected(items, from, |items|)
    ensures r.Err? <==> exists j :: MissingAt(items, from, j)
    ensures r.Err? ==> r.error == KeyError("tradingsymbol")
  {
    if from == |items| then Ok(None)
    else if "tradingsymbol" !in items[from] then
      assert MissingAt(items, from, from);
      Err(KeyError("tradingsymbol"))
    else if IsEq(items[from]) then
      assert forall j :: MissingAt(items, from, j) ==> j == from;
      Ok(Some(from))
    else
      var r := FirstEq(items, from + 1);
      assert r.Err? <==> exists j :: MissingAt(items, from, j) by {
        if r.Err? {
          var j :| MissingAt(items, from + 1, j);
          assert MissingAt(items, from, j);
        }
        if exists j :: MissingAt(items, from, j) {
          var j :| MissingAt(items, from, j);
          assert MissingAt(items, from + 1, j);
        }
      }
      r
  }

  /** The dict literal of the return statement, built key by key in order. */
  function Project(item: SearchItem): (r: Result<Scrip, Error>)
    ensures r.Ok? <==> "exchange" in item && "tradingsymbol" in item && "symboltoken" in item
    ensures r.Ok? ==> r.value == Scrip(item["exchange"], item["tradingsymbol"], item["symboltoken"])
    ensures "exchange" !in item ==> r == Err(KeyError("exchange"))
    ensures "exchange" in item && "tradingsymbol" !in item ==> r == Err(KeyError("tradingsymbol"))
    ensures "exchange" in item && "tradingsymbol" in item && "symboltoken" !in item ==>
      r == Err(KeyError("symboltoken"))
  {
    if "exchange" !in item then Err(KeyError("exchange"))
    else if "tradingsymbol" !in item then Err(KeyError("tradingsymbol"))
    else if "symboltoken" !in item then Err(KeyError("symboltoken"))
    else Ok(Scrip(item["exchange"], item["tradingsymbol"], item["symboltoken"]))
  }

  /** The search answer carries a non-empty `data` list. */
  predicate HasItems(resp: Response<seq<SearchItem>>) {
    resp.Payload? && resp.data.Present? && |resp.data.value| > 0
  }

  /** Everything `search_scrip_and_extract` does with an answer of
      `searchScrip`. */
  function Extract(resp: Response<seq<SearchItem>>): (r: Result<Scrip, Error>)
    ensures r == Err(ValueError(NoMatchingScrip)) <==> !HasItems(resp)
    ensures r == Err(ValueError(NoEqScrip)) <==>
      HasItems(resp) && Rejected(resp.data.value, 0, |resp.data.value|)
    ensures r.Ok? ==> EndsWith(r.value.tradingsymbol, EqSuffix)
    ensures r.Ok? ==>
      HasItems(resp) &&
      exists j: nat :: FirstEqAt(resp.data.value, j) && Project(resp.data.value[j]) == r
    // the first `-EQ` item decides the result
    ensures forall j: nat :: HasItems(resp) && FirstEqAt(resp.data.value, j) ==>
      r == Project(resp.data.value[j])
    // an item tested before any match that lacks `tradingsymbol` raises
    ensures forall j: nat :: HasItems(resp) && MissingAt(resp.data.value, 0, j) ==>
      r == Err(KeyError("tradingsymbol"))
  {
    if !HasItems(resp) then Err(ValueError(NoMatchingScrip))
    else
      var items := resp.data.value;
      assert forall j: nat :: FirstEqAt(items, j) ==> FirstEq(items, 0) == Ok(Some(j)) by {
        forall j: nat | FirstEqAt(items, j) ensures FirstEq(items, 0) == Ok(Some(j)) {
          FirstEqFindsFirstEqAt(items, 0, j);
        }
      }
      match FirstEq(items, 0)
      case Err(e) => Err(e)
      case Ok(None) => Err(ValueError(NoEqScrip))
      case Ok(Some(j)) => Project(items[j])
  }

  /** The declarative reading agrees with the generator: if `j` is the
      first `-EQ` item (every earlier item tested and rejected), `FirstEq`
      stops exactly there. */
  lemma {:induction false} FirstEqFindsFirstEqAt(items: seq<SearchItem>, from: nat, j: nat)
    requires from <= j < |items|
    requires Rejected(items, from, j) && "tradingsymbol" in items[j] && IsEq(items[j])
    ensures FirstEq(items, from) == Ok(Some(j))
    decreases j - from
  {
    if from == j {
      assert FirstEq(items, from) == Ok(Some(j));
    } else {
      assert "tradingsymbol" in items[from] && !IsEq(items[from]);
      assert FirstEq(items, from) == FirstEq(items, from + 1);
      FirstEqFindsFirstEqAt(items, from + 1, j);
    }
  }

  /** When an `-EQ` instrument follows other listings of the same name
      (`RELIANCE-BE` first, then `RELIANCE-EQ`), the resolver skips the
      others and returns the `-EQ` one. */
  lemma PrefersEquityListing(be: SearchItem, eq: SearchItem)
    requires be == map["exchange" := "NSE", "tradingsymbol" := "RELIANCE-BE", "symboltoken" := "3045"]
    requires eq == map["exchange" := "NSE", "tradingsymbol" := "RELIANCE-EQ", "symboltoken" := "2885"]
    ensures Extract(Payload(Present([be, eq]))) == Ok(Scrip("NSE", "RELIANCE-EQ", "2885"))
  {
    assert !IsEq(be) by {
      assert be["tradingsymbol"][|be["tradingsymbol"]| - 3..] == "-BE";
    }
    assert IsEq(eq);
    assert FirstEq([be, eq], 1) == Ok(Some(1));
  }
}
