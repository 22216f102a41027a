# CoinMetro client core, modelled in Dafny

This project models the logic of `CMapi.py`, the Python client for the CoinMetro
exchange REST API. The model covers the following parts of that client:

- **Filtering** (`filtering.dfy`). The `_search` helper walks a list of JSON records
  and a filter dict in nested loops. It appends a record once for every filter pair
  it matches. A record that lacks one of the filter's keys aborts the whole search
  with `(False, None)`, and so does an empty result. `SearchRecords` is that loop,
  kept imperative. It is proved against the specification function `Search`, and
  lemmas describe what `Search` returns.
- **Responses** (`responses.dfy`). This part covers:
  - the status test `199 < sc <= 299`;
  - `json_response`;
  - `_common_response`, which looks up `body[sortby]` before filtering;
  - the three copies of the filter branch inlined into `get_book_updates`,
    `get_trading_markets` and `get_trading_assets`;
  - the `[{}]` value returned when a search fails;
  - `delete_saved_address`.

  Every public market-data endpoint is one constructor of `PublicCall`, and
  `PublicResponse` is its outcome for a given HTTP response. A failed request is the
  error value `RequestFailed(status, body)` and not an exception.
- **Requests** (`requests.dfy`). This part covers:
  - the form payloads the order endpoints build with f-strings;
  - the optional fields `place_limit_order` appends;
  - the form data of `initiate_payment`;
  - the path of `get_historical_prices`.

  An independent decoder, `ParseForm` in `forms.dfy`, is the partner of the payload
  builders: each payload is proved to decode back to its fields.
- **Python values** (`values.dfy`). This part covers JSON values, keyword-argument
  values, truthiness, `dict.get`, `==` between booleans and integers, and `str()` of
  an integer. `str()` of an integer is given its own round-trip partner, `ParseInt`.

Line 220 of `place_limit_order` reads `sellingQty`, which is neither a parameter nor a
variable there, so every call raises `NameError`. The model keeps that behaviour in
`PlaceLimitOrderAsWritten`. It also gives the evidently intended version, with
`sellingQty` as a parameter, in `PlaceLimitOrder` (see Findings).

Behaviour of the code a reader might not expect:

- `_search` combines the filter pairs with OR, not AND. A record is returned once
  per pair it matches, so a record matching two pairs appears twice.
- An empty filter dict does not mean "no filtering", although the module docstring
  (CMapi.py:9-10) says a raw dictionary is returned when the filter is left empty.
  `filterBy={}` makes `_search` fail, and the endpoint then returns `[{}]`. Only
  `filterBy=None` skips filtering.
- `place_limit_order` raises when `expirationTime` is missing or falsy, whatever
  `timeInForce` is. The requirement is not limited to good-till-date orders.
- Every endpoint accepts any status from 200 to 299. No endpoint requires exactly 200.

## Model

| member | source | states |
|---|---|---|
| Filtering.SearchRecords | CMapi.py:245-259 | The nested loop returns `Some(xs)` exactly when every record holds every filter key and at least one record matched. In that case `xs` is the ordered list of matches, with each record repeated once per pair it meets. |
| Filtering.SearchCharacterization | CMapi.py:245-259 | The search succeeds iff no record lacks a filter key and some record meets some pair (both directions). On success the list is non-empty, and each record's multiplicity is its input multiplicity times the number of pairs it meets. |
| Filtering.MatchesMultiplicity | CMapi.py:247-251 | The appended records form a multiset in which each record occurs (occurrences in the input) × (filter pairs it meets) times. |
| Filtering.MatchesMembership | CMapi.py:247-251 | A record is in the result iff it is an input record meeting at least one filter pair. This makes the filter an OR of its pairs. |
| Filtering.MissingKeyAborts | CMapi.py:249-253 | A single record lacking a filter key makes the whole search fail, even when earlier records had already matched. |
| Filtering.EmptyFilterOrInputFails | CMapi.py:256-259 | An empty filter dict or an empty record list yields `(False, None)`. |
| Filtering.OneKeySearch | CMapi.py:245-259 | With one filter pair, the search is a plain order-preserving filter, checked against an independent front-recursive definition. It fails when no record matches or some record lacks the key. |
| Filtering.TwoKeysAreOrWithRepeats | CMapi.py:248-251 | A concrete instance: a record meeting one of two pairs is kept once, and a record meeting both is kept twice. |
| Responses.IsSuccess | CMapi.py:277 | `199 < sc <= 299` holds exactly for the statuses 200..299. |
| Responses.JsonResponse | CMapi.py:276-281 | The result is the body exactly on a 2xx status. Any other status is a request failure carrying that status and body. |
| Responses.DeleteResponse | CMapi.py:66-71 | Deleting a saved address succeeds exactly on a 2xx status, and otherwise fails with the status and body. |
| Responses.FilterTargetContract | CMapi.py:264-268 | On a list of records the filter branch returns `[{}]` exactly when `_search` fails. Otherwise it returns a non-empty list of input records, each meeting some pair, with multiplicity as in `_search`. |
| Responses.MatchesAreNotSentinel | CMapi.py:266-268 | A successful search never returns a value equal to the `[{}]` failure value, so callers can tell the two apart. |
| Responses.CommonResponseFiltered | CMapi.py:262-274 | On a 2xx response with a filter, a body without the `sortby` key is a `KeyError`. When `body[sortby]` is a record list, the result is the matches when `_search` succeeds and `[{}]` when it fails. |
| Responses.InlineFilterFiltered | CMapi.py:117-125 | The inlined filter branch (also at lines 146-155 and 160-168) gives the matches or `[{}]` on a record list, and rejects a body that is not a list of objects. |
| Responses.PublicStatusContract | CMapi.py:108-182 | For every public endpoint, the outcome is a request failure carrying status and body iff the status is outside 200..299. A 2xx response without a filter returns the body unchanged. |
| Responses.LatestPricesScenario | CMapi.py:135-141 | Filtering latest prices by `{"pair": "BTCEUR"}` returns just that record, and filtering by an unknown pair returns `[{}]`. |
| Requests.BuyOrderPayloadFields | CMapi.py:194 | The market buy payload is the form encoding of `orderType`, `buyingCurrency`, `sellingCurrency` and `buyingQty`, in that order. It decodes back to those fields when no value contains `&` (the keys are fixed and contain neither `&` nor `=`). |
| Requests.SellOrderPayloadFields | CMapi.py:210 | The same for the market sell payload, with `sellingQty` as the fourth field. |
| Requests.LimitOptionsOrdered | CMapi.py:222-233 | The appended options appear in the fixed order timeInForce, expirationTime, stopPrice, margin, fillStyle. Each is present only if truthy, and its value is `str()` of the argument. |
| Requests.LimitOptionsComplete | CMapi.py:222-233 | Every truthy option among the five names is appended, and every appended option is a truthy one of the five names, in their fixed order. |
| Requests.AppendLimitOptions | CMapi.py:222-233 | The chain of option tests fails exactly when `expirationTime` is missing or falsy, with the "needs expirationTime" error. Otherwise it returns the payload extended by `&name=value` for each truthy option. |
| Requests.RenderFailure | CMapi.py:220 | Evaluating an f-string fails iff it references an unbound name, and the error names the first such name. |
| Requests.PlaceLimitOrderAsWritten | CMapi.py:216-220 | As written, `place_limit_order` always fails with `NameError("sellingQty")`, before any option is examined. |
| Requests.LimitTemplateWithSellingQty | CMapi.py:220 | With `sellingQty` bound, the line-220 f-string renders to the five-field limit payload. |
| Requests.PlaceLimitOrder | CMapi.py:216-237 | The corrected call fails exactly when `expirationTime` is missing or falsy. Otherwise its payload is the form encoding of the five order fields followed by the truthy options, and it decodes back to them when the values are clean. |
| Requests.InitiatePaymentData | CMapi.py:38-42 | The payment form has exactly the keys amount, currency and paymentMethod (default `everypay`), plus `cardId` iff a truthy `cardId` was passed, each with the value given. |
| Requests.CandlePathSegments | CMapi.py:171-180 | The candle path splits on `/` into `open`, `exchange`, `candles`, pair, timeframe, From and To. Absent or falsy bounds are empty segments, and the timeframe and an integer `From` read back as the same integers. |
| Values.IntToStringRoundTrip | CMapi.py:180 | `str()` of an integer, as put into paths and payloads, parses back to the same integer. |

## Left out

- Network I/O is not modelled: the HTTP calls, headers, the base URL, and the bearer
  token obtained by the constructor's login (lines 19-35). A response is an input, a
  status code and an already decoded JSON body.
- JSON decoding, and `print` of status and body before raising, are not modelled.
- The instance methods' failure paths (lines 71, 281) raise `Exception(response)`.
  Every public endpoint is a classmethod, so its failure path calls
  `_request_not_successful` unbound with the wrong arguments and raises a `TypeError`
  that carries neither status nor body. This happens at lines 125, 133, 155 and 168,
  and at line 274, which `get_full_book`, `get_latest_prices` and
  `get_historical_prices` reach through `_common_response`.
- Responses.PublicStatusContract: the `RequestFailed(status, body)` it states for a
  non-2xx status is the model's uniform stand-in for that `TypeError` in all seven
  public endpoints. The model does not capture that the status and body are lost.
- The remaining authenticated getters, `withdraw` and `ensure_wallet` are not
  modelled. They build a fixed path, or one with a single interpolated argument, or
  a fixed three-key dict, and return
  `json_response`/`common_json_methods`, so they add no logic beyond `JsonResponse`.
- Filter targets that are not lists of JSON objects are not modelled. Python raises a
  `TypeError` when `_search` reaches a non-object element or a non-iterable target.
  It returns `[{}]` when the filter is empty, the target is empty, or an earlier
  record lacks a filter key. The model returns `UnsupportedShape` for every target
  that is not a list of objects.
- Floats are not a JSON value here.
- Values.PyEq: `True == 1` equality holds only at the top level of a value, not inside
  nested lists or objects.
- Keyword-argument values are limited to str, int, bool and None. Lists, dicts and
  floats passed as options are not modelled.
- The client does not percent-encode form values. The decoding round trips therefore
  hold only for values without `&` and keys without `&` or `=`, and for path segments
  without `/`. Those are the preconditions of the round-trip lemmas.

## Findings

| source | as written | input that shows it | evidently intended | confidence | as-written member | corrected member |
|---|---|---|---|---|---|---|
| CMapi.py:220 | The limit-order payload f-string references `sellingQty`, which `place_limit_order` neither takes nor defines, so every call raises `NameError` before the options are appended or the request is sent. | `place_limit_order("limit", "BTC", "EUR", "1", expirationTime=1)` | `sellingQty` is a parameter, as the order docstrings (lines 186-191) require both quantities for limit orders, and the payload carries all five fields. | high; not executed | Requests.PlaceLimitOrderAsWritten | Requests.PlaceLimitOrder |
