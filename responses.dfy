/**
 * Response normalisation: the status test, `json_response`, `_common_response`,
 * the copies of the filter branch inlined in three public endpoints, and the
 * dispatch of every public endpoint onto one of them.
 */
module Responses {
  import opened Wrappers
  import opened Values
  import opened Errors
  import opened Filtering

  /** An HTTP response: its status code and its decoded body. */
  datatype Response = Response(status: int, body: Json)

  /** The client's success test `199 < sc <= 299`: the 2xx statuses. */
  function IsSuccess(status: int): (ok: bool)
    ensures ok <==> 200 <= status && status < 300
  {
    199 < status <= 299
  }

  /** `[{}]`: what a filtered call returns when the search fails. */
  const Sentinel: Json := JArr([JObj(map[])])

  /** Reads a decoded list of objects as records; anything else has no record view. */
  function AsRecords(j: Json): Option<seq<Record>>
  {
    match j
    case JArr(items) =>
      if forall k :: 0 <= k < |items| ==> items[k].JObj?
      then Some(seq(|items|, k requires 0 <= k < |items| => items[k].fields))
      else None
    case _ => None
  }

  /** A list of records as the JSON list the call returns. */
  function RecordsToJson(rs: seq<Record>): Json
  {
    JArr(seq(|rs|, k requires 0 <= k < |rs| => JObj(rs[k])))
  }

  lemma RecordsRoundTrip(rs: seq<Record>, j: Json)
    ensures AsRecords(RecordsToJson(rs)) == Some(rs)
    ensures AsRecords(j) == Some(rs) ==> RecordsToJson(rs) == j
  {
    var items := RecordsToJson(rs).items;
    assert forall k :: 0 <= k < |items| ==> items[k] == JObj(rs[k]);
    var back := seq(|items|, k requires 0 <= k < |items| => items[k].fields);
    assert back == rs;
  }

  /** The filter branch: `_search` over `target`, its matches on success, else `[{}]`. */
  function FilterTarget(target: Json, f: Filter): Result<Json, Error>
  {
    match AsRecords(target)
    case None => Err(UnsupportedShape)
    case Some(rs) =>
      match Search(rs, f)
      case Some(xs) => Ok(RecordsToJson(xs))
      case None => Ok(Sentinel)
  }

  /** `json_response`: the body on success, an error otherwise. */
  function JsonResponse(resp: Response): (r: Result<Json, Error>)
    ensures r.Ok? <==> 200 <= resp.status <= 299
    ensures r.Ok? ==> r.value == resp.body
    ensures r.Err? ==> r.error == RequestFailed(resp.status, resp.body)
  {
    if IsSuccess(resp.status) then Ok(resp.body) else Err(RequestFailed(resp.status, resp.body))
  }

  /** `_common_response`: the filter runs over `body[sortby]`. */
  function CommonResponse(resp: Response, sortby: string, filterBy: Option<Filter>): Result<Json, Error>
  {
    if !IsSuccess(resp.status) then Err(RequestFailed(resp.status, resp.body))
    else
      match filterBy
      case None => Ok(resp.body)
      case Some(f) =>
        match resp.body
        case JObj(fields) => if sortby in fields then FilterTarget(fields[sortby], f) else Err(KeyError(sortby))
        case _ => Err(TypeError)
  }

  /** The copy of the filter branch inlined in `get_book_updates`, `get_trading_markets` and
      `get_trading_assets`: the filter runs over the whole body. */
  function InlineFilterResponse(resp: Response, filterBy: Option<Filter>): Result<Json, Error>
  {
    if !IsSuccess(resp.status) then Err(RequestFailed(resp.status, resp.body))
    else
      match filterBy
      case None => Ok(resp.body)
      case Some(f) => FilterTarget(resp.body, f)
  }

  /** The public (class-level) endpoints and the filter each call was given. */
  datatype PublicCall =
    | FullBook(filterBy: Option<Filter>)
    | BookUpdates(filterBy: Option<Filter>)
    | LatestTrades
    | LatestPrices(filterBy: Option<Filter>)
    | TradingMarkets(filterBy: Option<Filter>)
    | TradingAssets(filterBy: Option<Filter>)
    | HistoricalPrices(filterBy: Option<Filter>)

  /** How each public endpoint turns its response into a result. */
  function PublicResponse(call: PublicCall, resp: Response): Result<Json, Error>
  {
    match call
    case FullBook(f) => CommonResponse(resp, "book", f)
    case BookUpdates(f) => InlineFilterResponse(resp, f)
    case LatestTrades => JsonResponse(resp)
    case LatestPrices(f) => CommonResponse(resp, "latestPrices", f)
    case TradingMarkets(f) => InlineFilterResponse(resp, f)
    case TradingAssets(f) => InlineFilterResponse(resp, f)
    case HistoricalPrices(f) => CommonResponse(resp, "candleHistory", f)
  }

  /** The filter a call was given, `None` for an endpoint that takes none. */
  function FilterOf(call: PublicCall): Option<Filter>
  {
    if call.LatestTrades? then None else call.filterBy
  }

  /** `delete_saved_address`: nothing on success, an error otherwise. */
  function DeleteResponse(resp: Response): (r: Result<(), Error>)
    ensures r.Ok? <==> 200 <= resp.status < 300
    ensures r.Err? ==> r.error == RequestFailed(resp.status, resp.body)
  {
    if IsSuccess(resp.status) then Ok(()) else Err(RequestFailed(resp.status, resp.body))
  }

  /**
   * Every public endpoint: a status outside 200..299 is a request failure carrying
   * status and body, and no other outcome is; a 2xx response with no filter returns
   * the body unchanged.
   */
  lemma PublicStatusContract(call: PublicCall, resp: Response)
    ensures PublicResponse(call, resp) == Err(RequestFailed(resp.status, resp.body)) <==> !(200 <= resp.status < 300)
    ensures 200 <= resp.status < 300 && FilterOf(call) == None ==> PublicResponse(call, resp) == Ok(resp.body)
  {
  }

  /** A genuine match list is never `[{}]`: every match holds the filter's keys, and there is at least one. */
  lemma {:induction false} MatchesAreNotSentinel(rs: seq<Record>, f: Filter)
    requires Search(rs, f).Some?
    ensures RecordsToJson(Search(rs, f).value) != Sentinel
  {
    var xs := Search(rs, f).value;
    SearchCharacterization(rs, f);
    MatchesMembership(rs, f, xs[0]);
    var k :| 0 <= k < |f| && PairMatches(xs[0], f[k]);
    assert f[k].0 in xs[0];
    assert RecordsToJson(xs).items[0] == JObj(xs[0]) != JObj(map[]);
  }

  /**
   * The filter branch on a list of records: the call returns `[{}]` exactly when
   * `_search` fails, and otherwise a non-empty list of input records, each meeting
   * some filter pair and repeated once per pair it meets.
   */
  lemma FilterTargetContract(rs: seq<Record>, f: Filter)
    ensures FilterTarget(RecordsToJson(rs), f).Ok?
    ensures FilterTarget(RecordsToJson(rs), f) == Ok(Sentinel) <==> Search(rs, f) == None
    ensures FilterTarget(RecordsToJson(rs), f) != Ok(Sentinel) ==>
      exists xs :: FilterTarget(RecordsToJson(rs), f) == Ok(RecordsToJson(xs)) && xs != [] &&
        (forall x :: x in xs ==> x in rs && exists j :: 0 <= j < |f| && PairMatches(x, f[j])) &&
        (forall x :: multiset(xs)[x] == multiset(rs)[x] * MatchCount(x, f))
  {
    RecordsRoundTrip(rs, RecordsToJson(rs));
    if Search(rs, f).Some? {
      var xs := Search(rs, f).value;
      MatchesAreNotSentinel(rs, f);
      SearchCharacterization(rs, f);
      forall x | x in xs ensures x in rs && exists j :: 0 <= j < |f| && PairMatches(x, f[j]) {
        MatchesMembership(rs, f, x);
      }
    }
  }

  /**
   * `_common_response` with a filter on a 2xx response whose `body[sortby]` is a list of
   * records: `[{}]` exactly when `_search` fails, otherwise its matches. A missing
   * `sortby` is a `KeyError`.
   */
  lemma CommonResponseFiltered(status: int, fields: map<string, Json>, sortby: string, f: Filter, rs: seq<Record>)
    requires 200 <= status < 300
    ensures sortby !in fields ==> CommonResponse(Response(status, JObj(fields)), sortby, Some(f)) == Err(KeyError(sortby))
    ensures sortby in fields && fields[sortby] == RecordsToJson(rs) ==>
      CommonResponse(Response(status, JObj(fields)), sortby, Some(f)) ==
        if Search(rs, f).Some? then Ok(RecordsToJson(Search(rs, f).value)) else Ok(Sentinel)
  {
    RecordsRoundTrip(rs, RecordsToJson(rs));
  }

  /**
   * The filter branch inlined in three endpoints, on a 2xx response whose whole body is a
   * list of records: `[{}]` exactly when `_search` fails, otherwise its matches; a body
   * that is not a list of objects is outside the model.
   */
  lemma InlineFilterFiltered(status: int, body: Json, f: Filter, rs: seq<Record>)
    requires 200 <= status < 300
    ensures AsRecords(body) == None ==> InlineFilterResponse(Response(status, body), Some(f)) == Err(UnsupportedShape)
    ensures body == RecordsToJson(rs) ==>
      InlineFilterResponse(Response(status, body), Some(f)) ==
        if Search(rs, f).Some? then Ok(RecordsToJson(Search(rs, f).value)) else Ok(Sentinel)
  {
    RecordsRoundTrip(rs, RecordsToJson(rs));
  }

  /** The latest-prices scenario: filtering on one pair returns that pair's record, an unknown pair `[{}]`. */
  lemma LatestPricesScenario()
    ensures var btc := map["pair" := JStr("BTCEUR"), "price" := JInt(50000)];
      var eth := map["pair" := JStr("ETHEUR"), "price" := JInt(3000)];
      var body := JObj(map["latestPrices" := JArr([JObj(btc), JObj(eth)])]);
      PublicResponse(LatestPrices(Some([("pair", JStr("BTCEUR"))])), Response(200, body)) == Ok(JArr([JObj(btc)])) &&
      PublicResponse(LatestPrices(Some([("pair", JStr("XXXYYY"))])), Response(200, body)) == Ok(Sentinel)
  {
    var btc := map["pair" := JStr("BTCEUR"), "price" := JInt(50000)];
    var eth := map["pair" := JStr("ETHEUR"), "price" := JInt(3000)];
    var rs := [btc, eth];
    var body := JObj(map["latestPrices" := JArr([JObj(btc), JObj(eth)])]);
    assert JArr([JObj(btc), JObj(eth)]) == RecordsToJson(rs);
    CommonResponseFiltered(200, body.fields, "latestPrices", [("pair", JStr("BTCEUR"))], rs);
    CommonResponseFiltered(200, body.fields, "latestPrices", [("pair", JStr("XXXYYY"))], rs);
    OneKeySearch(rs, "pair", JStr("BTCEUR"));
    OneKeySearch(rs, "pair", JStr("XXXYYY"));
    assert rs[1..] == [eth] && [eth][1..] == [];
    assert KeepWhere(rs, "pair", JStr("BTCEUR")) == [btc];
    assert KeepWhere(rs, "pair", JStr("XXXYYY")) == [];
    assert RecordsToJson([btc]) == JArr([JObj(btc)]);
  }
}
