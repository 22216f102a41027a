/**
 * The request bodies and paths the client builds before it calls the exchange:
 * market-order payloads, the limit-order payload and its options, the payment
 * form data and the candle path.
 */
module Requests {
  import opened Wrappers
  import opened Values
  import opened Errors
  import opened Forms

  // ---------------------------------------------------------------- market orders

  /** The fields of a market buy order, in the order the payload lists them. */
  function BuyOrderFields(orderType: string, buyingCurrency: string, sellingCurrency: string, buyingQty: string): seq<Field>
  {
    [("orderType", orderType), ("buyingCurrency", buyingCurrency), ("sellingCurrency", sellingCurrency), ("buyingQty", buyingQty)]
  }

  /** The fields of a market sell order, in the order the payload lists them. */
  function SellOrderFields(orderType: string, buyingCurrency: string, sellingCurrency: string, sellingQty: string): seq<Field>
  {
    [("orderType", orderType), ("buyingCurrency", buyingCurrency), ("sellingCurrency", sellingCurrency), ("sellingQty", sellingQty)]
  }

  /** `place_buy_order`'s payload f-string. The extra keyword arguments are accepted and not read. */
  function BuyOrderPayload(orderType: string, buyingCurrency: string, sellingCurrency: string, buyingQty: string,
                           kwgs: map<string, Arg>): string
  {
    "orderType=" + orderType + "&buyingCurrency=" + buyingCurrency +
    "&sellingCurrency=" + sellingCurrency + "&buyingQty=" + buyingQty
  }

  /** `place_sell_order`'s payload f-string. The extra keyword arguments are accepted and not read. */
  function SellOrderPayload(orderType: string, buyingCurrency: string, sellingCurrency: string, sellingQty: string,
                            kwgs: map<string, Arg>): string
  {
    "orderType=" + orderType + "&buyingCurrency=" + buyingCurrency +
    "&sellingCurrency=" + sellingCurrency + "&sellingQty=" + sellingQty
  }

  /** The market-order f-string shape, `k1=v1&k2=v2&k3=v3&k4=v4`, is the form string of its four fields. */
  lemma FourFieldPayload(k1: string, v1: string, k2: string, v2: string, k3: string, v3: string, k4: string, v4: string,
                         l1: string, l2: string, l3: string, l4: string)
    requires l1 == k1 + "=" && l2 == "&" + k2 + "=" && l3 == "&" + k3 + "=" && l4 == "&" + k4 + "="
    ensures l1 + v1 + l2 + v2 + l3 + v3 + l4 + v4 == FormString([(k1, v1), (k2, v2), (k3, v3), (k4, v4)])
  {
    FormString4((k1, v1), (k2, v2), (k3, v3), (k4, v4));
  }

  /**
   * A buy order's payload is exactly its four fields, in fixed order, whatever the
   * keyword arguments; when no value holds an `&`, decoding it gives those fields back.
   */
  lemma BuyOrderPayloadFields(orderType: string, buyingCurrency: string, sellingCurrency: string, buyingQty: string,
                              kwgs: map<string, Arg>)
    ensures BuyOrderPayload(orderType, buyingCurrency, sellingCurrency, buyingQty, kwgs) ==
      FormString(BuyOrderFields(orderType, buyingCurrency, sellingCurrency, buyingQty))
    ensures AllClean(BuyOrderFields(orderType, buyingCurrency, sellingCurrency, buyingQty)) ==>
      ParseForm(BuyOrderPayload(orderType, buyingCurrency, sellingCurrency, buyingQty, kwgs)) ==
        BuyOrderFields(orderType, buyingCurrency, sellingCurrency, buyingQty)
  {
    var fs := BuyOrderFields(orderType, buyingCurrency, sellingCurrency, buyingQty);
    assert "orderType=" == "orderType" + "=";
    assert "&buyingCurrency=" == "&" + "buyingCurrency" + "=";
    assert "&sellingCurrency=" == "&" + "sellingCurrency" + "=";
    assert "&buyingQty=" == "&" + "buyingQty" + "=";
    FourFieldPayload("orderType", orderType, "buyingCurrency", buyingCurrency, "sellingCurrency", sellingCurrency,
                     "buyingQty", buyingQty, "orderType=", "&buyingCurrency=", "&sellingCurrency=", "&buyingQty=");
    if AllClean(fs) {
      FormRoundTrip(fs);
    }
  }

  /** A sell order's payload is exactly its four fields, in fixed order, whatever the keyword arguments. */
  lemma SellOrderPayloadFields(orderType: string, buyingCurrency: string, sellingCurrency: string, sellingQty: string,
                               kwgs: map<string, Arg>)
    ensures SellOrderPayload(orderType, buyingCurrency, sellingCurrency, sellingQty, kwgs) ==
      FormString(SellOrderFields(orderType, buyingCurrency, sellingCurrency, sellingQty))
    ensures AllClean(SellOrderFields(orderType, buyingCurrency, sellingCurrency, sellingQty)) ==>
      ParseForm(SellOrderPayload(orderType, buyingCurrency, sellingCurrency, sellingQty, kwgs)) ==
        SellOrderFields(orderType, buyingCurrency, sellingCurrency, sellingQty)
  {
    var fs := SellOrderFields(orderType, buyingCurrency, sellingCurrency, sellingQty);
    assert "orderType=" == "orderType" + "=";
    assert "&buyingCurrency=" == "&" + "buyingCurrency" + "=";
    assert "&sellingCurrency=" == "&" + "sellingCurrency" + "=";
    assert "&sellingQty=" == "&" + "sellingQty" + "=";
    FourFieldPayload("orderType", orderType, "buyingCurrency", buyingCurrency, "sellingCurrency", sellingCurrency,
                     "sellingQty", sellingQty, "orderType=", "&buyingCurrency=", "&sellingCurrency=", "&sellingQty=");
    if AllClean(fs) {
      FormRoundTrip(fs);
    }
  }

  // ---------------------------------------------------------------- limit orders

  /** The optional limit-order fields, in the order `place_limit_order` tests them. */
  const LimitOptionNames: seq<string> := ["timeInForce", "expirationTime", "stopPrice", "margin", "fillStyle"]

  /** `(name, str(kwgs[name]))` when `kwgs.get(name)` is truthy, nothing otherwise. */
  function OptionField(kwgs: map<string, Arg>, name: string): seq<Field>
  {
    if Truthy(Get(kwgs, name)) then [(name, Str(kwgs[name]))] else []
  }

  /** The options a limit order carries, in the order the source appends them. */
  function LimitOptions(kwgs: map<string, Arg>): seq<Field>
  {
    OptionField(kwgs, "timeInForce") + OptionField(kwgs, "expirationTime") + OptionField(kwgs, "stopPrice") +
    OptionField(kwgs, "margin") + OptionField(kwgs, "fillStyle")
  }

  /** Options drawn from truthy keyword arguments, `str()` of each as its value, in `LimitOptionNames` order. */
  ghost predicate OrderedOptions(fs: seq<Field>, kwgs: map<string, Arg>)
  {
    (forall k :: 0 <= k < |fs| ==>
      fs[k].0 in LimitOptionNames && fs[k].0 in kwgs && Truthy(kwgs[fs[k].0]) && fs[k].1 == Str(kwgs[fs[k].0])) &&
    (forall k, m :: 0 <= k < m < |fs| ==> Position(fs[k].0) < Position(fs[m].0))
  }

  lemma OptionFieldExtends(fs: seq<Field>, kwgs: map<string, Arg>, name: string)
    requires OrderedOptions(fs, kwgs) && name in LimitOptionNames
    requires forall k :: 0 <= k < |fs| ==> Position(fs[k].0) < Position(name)
    ensures OrderedOptions(fs + OptionField(kwgs, name), kwgs)
    ensures Truthy(Get(kwgs, name)) ==> (fs + OptionField(kwgs, name))[|fs|].0 == name
    ensures forall k :: 0 <= k < |fs + OptionField(kwgs, name)| ==> Position((fs + OptionField(kwgs, name))[k].0) <= Position(name)
  {
  }

  /**
   * The limit-order options: each is one of the five option names whose keyword
   * argument is truthy, with `str()` of that argument as its value, and they come
   * in the fixed order `timeInForce`, `expirationTime`, `stopPrice`, `margin`, `fillStyle`.
   */
  lemma LimitOptionsOrdered(kwgs: map<string, Arg>)
    ensures OrderedOptions(LimitOptions(kwgs), kwgs)
  {
    assert LimitOptionNames == ["timeInForce", "expirationTime", "stopPrice", "margin", "fillStyle"];
    var a := OptionField(kwgs, "timeInForce");
    var ab := a + OptionField(kwgs, "expirationTime");
    var abc := ab + OptionField(kwgs, "stopPrice");
    var abcd := abc + OptionField(kwgs, "margin");
    assert abcd + OptionField(kwgs, "fillStyle") == LimitOptions(kwgs);
    OptionFieldExtends([], kwgs, "timeInForce");
    assert [] + a == a;
    OptionFieldExtends(a, kwgs, "expirationTime");
    OptionFieldExtends(ab, kwgs, "stopPrice");
    OptionFieldExtends(abc, kwgs, "margin");
    OptionFieldExtends(abcd, kwgs, "fillStyle");
  }

  /**
   * Every option name whose keyword argument is truthy appears among the limit-order
   * options, and nothing else does.
   */
  lemma LimitOptionsComplete(kwgs: map<string, Arg>)
    ensures OrderedOptions(LimitOptions(kwgs), kwgs)
    ensures forall i :: 0 <= i < |LimitOptionNames| && Truthy(Get(kwgs, LimitOptionNames[i])) ==>
      exists k :: 0 <= k < |LimitOptions(kwgs)| && LimitOptions(kwgs)[k].0 == LimitOptionNames[i]
  {
    var a := OptionField(kwgs, "timeInForce");
    var ab := a + OptionField(kwgs, "expirationTime");
    var abc := ab + OptionField(kwgs, "stopPrice");
    var abcd := abc + OptionField(kwgs, "margin");
    var fs := abcd + OptionField(kwgs, "fillStyle");
    assert fs == LimitOptions(kwgs);
    LimitOptionsOrdered(kwgs);
    if Truthy(Get(kwgs, "timeInForce")) { assert fs[0] == a[0]; }
    if Truthy(Get(kwgs, "expirationTime")) { assert fs[|a|] == ab[|a|]; }
    if Truthy(Get(kwgs, "stopPrice")) { assert fs[|ab|] == abc[|ab|]; }
    if Truthy(Get(kwgs, "margin")) { assert fs[|abc|] == abcd[|abc|]; }
    if Truthy(Get(kwgs, "fillStyle")) { assert fs[|abcd|].0 == "fillStyle"; }
  }

  /** Where an option name stands in `LimitOptionNames`. */
  function Position(name: string): nat
  {
    if name == "timeInForce" then 0
    else if name == "expirationTime" then 1
    else if name == "stopPrice" then 2
    else if name == "margin" then 3
    else 4
  }

  lemma OptionLiterals()
    ensures "&timeInForce=" == "&" + "timeInForce" + "="
    ensures "&expirationTime=" == "&" + "expirationTime" + "="
    ensures "&stopPrice=" == "&" + "stopPrice" + "="
    ensures "&margin=" == "&" + "margin" + "="
    ensures "&fillStyle=" == "&" + "fillStyle" + "="
  {
  }

  /** One more option: its `&name=value` is appended after the earlier ones when its argument is truthy. */
  lemma OptionStep(kwgs: map<string, Arg>, name: string, lit: string, payload: string, done: seq<Field>, out: string)
    requires lit == "&" + name + "="
    requires out == payload + Suffix(done)
    ensures (if Truthy(Get(kwgs, name)) then out + lit + Str(kwgs[name]) else out) ==
      payload + Suffix(done + OptionField(kwgs, name))
  {
    if Truthy(Get(kwgs, name)) {
      var f := (name, Str(kwgs[name]));
      assert (done + [f])[..|done|] == done;
    } else {
      assert done + [] == done;
    }
  }

  /**
   * Lines 222-233 of `place_limit_order`: append each truthy option in turn; a missing
   * or falsy `expirationTime` raises, whatever `timeInForce` is.
   */
  method AppendLimitOptions(payload: string, kwgs: map<string, Arg>) returns (r: Result<string, Error>)
    ensures r.Ok? <==> Truthy(Get(kwgs, "expirationTime"))
    ensures r.Err? ==> r.error == MissingExpirationTime
    ensures r.Ok? ==> r.value == payload + Suffix(LimitOptions(kwgs))
  {
    OptionLiterals();
    var out := payload;
    ghost var done: seq<Field> := [];
    OptionStep(kwgs, "timeInForce", "&timeInForce=", payload, done, out);
    if Truthy(Get(kwgs, "timeInForce")) {
      out := out + "&timeInForce=" + Str(kwgs["timeInForce"]);
    }
    done := done + OptionField(kwgs, "timeInForce");
    OptionStep(kwgs, "expirationTime", "&expirationTime=", payload, done, out);
    if Truthy(Get(kwgs, "expirationTime")) {
      out := out + "&expirationTime=" + Str(kwgs["expirationTime"]);
    } else {
      return Err(MissingExpirationTime);
    }
    done := done + OptionField(kwgs, "expirationTime");
    OptionStep(kwgs, "stopPrice", "&stopPrice=", payload, done, out);
    if Truthy(Get(kwgs, "stopPrice")) {
      out := out + "&stopPrice=" + Str(kwgs["stopPrice"]);
    }
    done := done + OptionField(kwgs, "stopPrice");
    OptionStep(kwgs, "margin", "&margin=", payload, done, out);
    if Truthy(Get(kwgs, "margin")) {
      out := out + "&margin=" + Str(kwgs["margin"]);
    }
    done := done + OptionField(kwgs, "margin");
    OptionStep(kwgs, "fillStyle", "&fillStyle=", payload, done, out);
    if Truthy(Get(kwgs, "fillStyle")) {
      out := out + "&fillStyle=" + Str(kwgs["fillStyle"]);
    }
    done := done + OptionField(kwgs, "fillStyle");
    return Ok(out);
  }

  /** The fields of a limit order before its options, in the order line 220 lists them. */
  function LimitOrderFields(orderType: string, buyingCurrency: string, sellingCurrency: string, buyingQty: string,
                            sellingQty: string): seq<Field>
  {
    BuyOrderFields(orderType, buyingCurrency, sellingCurrency, buyingQty) + [("sellingQty", sellingQty)]
  }

  /** Line 220's f-string once `sellingQty` is bound. */
  function LimitOrderPayload(orderType: string, buyingCurrency: string, sellingCurrency: string, buyingQty: string,
                             sellingQty: string): string
  {
    "orderType=" + orderType + "&buyingCurrency=" + buyingCurrency +
    "&sellingCurrency=" + sellingCurrency + "&buyingQty=" + buyingQty + "&sellingQty=" + sellingQty
  }

  lemma LimitOrderPayloadFields(orderType: string, buyingCurrency: string, sellingCurrency: string, buyingQty: string,
                                sellingQty: string)
    ensures LimitOrderPayload(orderType, buyingCurrency, sellingCurrency, buyingQty, sellingQty) ==
      FormString(LimitOrderFields(orderType, buyingCurrency, sellingCurrency, buyingQty, sellingQty))
  {
    BuyOrderPayloadFields(orderType, buyingCurrency, sellingCurrency, buyingQty, map[]);
    FormStringSnoc(BuyOrderFields(orderType, buyingCurrency, sellingCurrency, buyingQty), ("sellingQty", sellingQty));
    assert "&sellingQty=" == "&" + "sellingQty" + "=";
  }

  /** One piece of an f-string: literal text or a `{name}` read from the enclosing scope. */
  datatype Piece = Lit(text: string) | Ref(name: string)

  /** Whether evaluating the piece succeeds: literal text, or a name the scope binds. */
  predicate Bound(p: Piece, scope: map<string, string>)
  {
    p.Lit? || p.name in scope
  }

  function Text(p: Piece, scope: map<string, string>): string
    requires Bound(p, scope)
  {
    if p.Lit? then p.text else scope[p.name]
  }

  /** Evaluates an f-string left to right; the first unbound name raises `NameError`. */
  function Render(pieces: seq<Piece>, scope: map<string, string>): Result<string, Error>
  {
    if pieces == [] then Ok("")
    else if !Bound(pieces[0], scope) then Err(NameError(pieces[0].name))
    else
      var rest := Render(pieces[1..], scope);
      if rest.Ok? then Ok(Text(pieces[0], scope) + rest.value) else rest
  }

  /** An f-string fails exactly when some name is unbound, and then with a `NameError` for the first such name. */
  lemma {:induction false} RenderFailure(pieces: seq<Piece>, scope: map<string, string>)
    ensures Render(pieces, scope).Err? <==> exists k :: 0 <= k < |pieces| && !Bound(pieces[k], scope)
    ensures Render(pieces, scope).Err? ==>
      exists k :: 0 <= k < |pieces| && !Bound(pieces[k], scope) &&
        Render(pieces, scope).error == NameError(pieces[k].name) && (forall m :: 0 <= m < k ==> Bound(pieces[m], scope))
  {
    if pieces != [] && Bound(pieces[0], scope) {
      RenderFailure(pieces[1..], scope);
      if exists k :: 0 <= k < |pieces| && !Bound(pieces[k], scope) {
        var k :| 0 <= k < |pieces| && !Bound(pieces[k], scope);
        assert pieces[1..][k - 1] == pieces[k];
      }
      if Render(pieces[1..], scope).Err? {
        var k :| 0 <= k < |pieces[1..]| && !Bound(pieces[1..][k], scope) &&
          Render(pieces[1..], scope).error == NameError(pieces[1..][k].name) &&
          (forall m :: 0 <= m < k ==> Bound(pieces[1..][m], scope));
        assert pieces[k + 1] == pieces[1..][k];
        forall m | 0 <= m < k + 1 ensures Bound(pieces[m], scope) {
          if m > 0 { assert pieces[m] == pieces[1..][m - 1]; }
        }
      }
    }
  }

  /** The limit-order payload f-string (CMapi.py:220), which names `sellingQty`. */
  const LimitPayloadTemplate: seq<Piece> := [
    Lit("orderType="), Ref("orderType"), Lit("&buyingCurrency="), Ref("buyingCurrency"),
    Lit("&sellingCurrency="), Ref("sellingCurrency"), Lit("&buyingQty="), Ref("buyingQty"),
    Lit("&sellingQty="), Ref("sellingQty")]

  /** The string-valued names in scope at line 220: `place_limit_order`'s own parameters. */
  function LimitOrderScope(orderType: string, buyingCurrency: string, sellingCurrency: string, buyingQty: string): map<string, string>
  {
    map["orderType" := orderType, "buyingCurrency" := buyingCurrency,
        "sellingCurrency" := sellingCurrency, "buyingQty" := buyingQty]
  }

  /** A literal followed by a bound name renders to the literal, the name's value, then the rest. */
  lemma RenderLitRef(l: string, n: string, rest: seq<Piece>, scope: map<string, string>)
    requires n in scope && Render(rest, scope).Ok?
    ensures Render([Lit(l), Ref(n)] + rest, scope) == Ok(l + scope[n] + Render(rest, scope).value)
  {
    var p := [Lit(l), Ref(n)] + rest;
    var v := Render(rest, scope).value;
    assert p[1..] == [Ref(n)] + rest;
    assert p[1..][1..] == rest;
    assert Render(p[1..], scope) == Ok(scope[n] + v);
    assert Render(p, scope) == Ok(l + (scope[n] + v));
    assert l + (scope[n] + v) == l + scope[n] + v;
  }

  /** The f-string of CMapi.py:220 renders to the limit order's payload once `sellingQty` is bound. */
  lemma LimitTemplateWithSellingQty(orderType: string, buyingCurrency: string, sellingCurrency: string, buyingQty: string,
                              sellingQty: string)
    ensures Render(LimitPayloadTemplate, LimitOrderScope(orderType, buyingCurrency, sellingCurrency, buyingQty)["sellingQty" := sellingQty]) ==
      Ok(LimitOrderPayload(orderType, buyingCurrency, sellingCurrency, buyingQty, sellingQty))
  {
    var scope := LimitOrderScope(orderType, buyingCurrency, sellingCurrency, buyingQty)["sellingQty" := sellingQty];
    assert scope["orderType"] == orderType && scope["buyingCurrency"] == buyingCurrency;
    assert scope["sellingCurrency"] == sellingCurrency && scope["buyingQty"] == buyingQty;
    assert scope["sellingQty"] == sellingQty;
    var t4 := [Lit("&sellingQty="), Ref("sellingQty")];
    var t3 := [Lit("&buyingQty="), Ref("buyingQty")] + t4;
    var t2 := [Lit("&sellingCurrency="), Ref("sellingCurrency")] + t3;
    var t1 := [Lit("&buyingCurrency="), Ref("buyingCurrency")] + t2;
    var t0 := [Lit("orderType="), Ref("orderType")] + t1;
    assert LimitPayloadTemplate == t0;
    assert Render([], scope) == Ok("");
    RenderLitRef("&sellingQty=", "sellingQty", [], scope);
    assert t4 == t4 + [];
    RenderLitRef("&buyingQty=", "buyingQty", t4, scope);
    RenderLitRef("&sellingCurrency=", "sellingCurrency", t3, scope);
    RenderLitRef("&buyingCurrency=", "buyingCurrency", t2, scope);
    RenderLitRef("orderType=", "orderType", t1, scope);
    Regroup("orderType=", orderType, "&buyingCurrency=", buyingCurrency, "&sellingCurrency=", sellingCurrency,
            "&buyingQty=", buyingQty, "&sellingQty=", sellingQty);
  }

  lemma Regroup(a: string, b: string, c: string, d: string, e: string, f: string, g: string, h: string, i: string, j: string)
    ensures a + b + (c + d + (e + f + (g + h + (i + j + "")))) == a + b + c + d + e + f + g + h + i + j
  {
  }

  /**
   * `place_limit_order` as written: line 220 reads `sellingQty`, which is neither a
   * parameter nor a local, so every call raises `NameError` before any option is
   * appended or any request is made.
   */
  method PlaceLimitOrderAsWritten(orderType: string, buyingCurrency: string, sellingCurrency: string, buyingQty: string,
                                  kwgs: map<string, Arg>) returns (r: Result<string, Error>)
    ensures r == Err(NameError("sellingQty"))
  {
    var scope := LimitOrderScope(orderType, buyingCurrency, sellingCurrency, buyingQty);
    var rendered := Render(LimitPayloadTemplate, scope);
    RenderFailure(LimitPayloadTemplate, scope);
    assert !Bound(LimitPayloadTemplate[9], scope);
    assert forall m :: 0 <= m < 9 ==> Bound(LimitPayloadTemplate[m], scope);
    if rendered.Err? {
      return Err(rendered.error);
    }
    // Not reached: line 220 always raises, so the options of lines 222-233 are never appended.
    assert false;
  }

  /**
   * `place_limit_order` with `sellingQty` taken as a parameter: the payload is the
   * five order fields followed by the truthy options, and the call fails exactly
   * when `expirationTime` is missing or falsy.
   */
  method PlaceLimitOrder(orderType: string, buyingCurrency: string, sellingCurrency: string, buyingQty: string,
                         sellingQty: string, kwgs: map<string, Arg>) returns (r: Result<string, Error>)
    ensures r.Ok? <==> Truthy(Get(kwgs, "expirationTime"))
    ensures r.Err? ==> r.error == MissingExpirationTime
    ensures r.Ok? ==> r.value == FormString(LimitOrderFields(orderType, buyingCurrency, sellingCurrency, buyingQty, sellingQty) + LimitOptions(kwgs))
    ensures r.Ok? && AllClean(LimitOrderFields(orderType, buyingCurrency, sellingCurrency, buyingQty, sellingQty) + LimitOptions(kwgs)) ==>
      ParseForm(r.value) == LimitOrderFields(orderType, buyingCurrency, sellingCurrency, buyingQty, sellingQty) + LimitOptions(kwgs)
  {
    ghost var fields := LimitOrderFields(orderType, buyingCurrency, sellingCurrency, buyingQty, sellingQty);
    var payload := LimitOrderPayload(orderType, buyingCurrency, sellingCurrency, buyingQty, sellingQty);
    LimitOrderPayloadFields(orderType, buyingCurrency, sellingCurrency, buyingQty, sellingQty);
    r := AppendLimitOptions(payload, kwgs);
    if r.Ok? {
      FormStringThenSuffix(fields, LimitOptions(kwgs));
      if AllClean(fields + LimitOptions(kwgs)) {
        FormRoundTrip(fields + LimitOptions(kwgs));
      }
    }
  }

  // ---------------------------------------------------------------- payments

  const DefaultPaymentMethod: string := "everypay"

  /** `initiate_payment`'s form data: three fixed fields, and `cardId` only when a truthy one was passed. */
  method InitiatePaymentData(amount: string, currency: string, paymentMethod: string := DefaultPaymentMethod,
                             kwgs: map<string, Arg> := map[]) returns (data: map<string, Arg>)
    ensures data.Keys == {"amount", "currency", "paymentMethod"} + (if Truthy(Get(kwgs, "cardId")) then {"cardId"} else {})
    ensures data["amount"] == AStr(amount) && data["currency"] == AStr(currency)
    ensures data["paymentMethod"] == AStr(paymentMethod)
    ensures "cardId" in data ==> data["cardId"] == kwgs["cardId"]
  {
    data := map["amount" := AStr(amount), "currency" := AStr(currency), "paymentMethod" := AStr(paymentMethod)];
    if Truthy(Get(kwgs, "cardId")) {
      data := data["cardId" := kwgs["cardId"]];
    }
  }

  // ---------------------------------------------------------------- candles

  /** `FROM`/`TO` in `get_historical_prices`: `str()` of the keyword argument when truthy, else empty. */
  function TimeBound(kwargs: map<string, Arg>, key: string): string
  {
    if Truthy(Get(kwargs, key)) then Str(kwargs[key]) else ""
  }

  /** The path `get_historical_prices` requests. */
  function CandlePath(pair: string, timeframe: int, kwargs: map<string, Arg>): string
  {
    var from := TimeBound(kwargs, "From");
    var to := TimeBound(kwargs, "To");
    "/open/exchange/candles/" + pair + "/" + IntToString(timeframe) + "/" + from + "/" + to
  }

  lemma CandlePathJoin(pair: string, timeframe: string, from: string, to: string)
    ensures "/open/exchange/candles/" + pair + "/" + timeframe + "/" + from + "/" + to ==
      Join(["", "open", "exchange", "candles", pair, timeframe, from, to], '/')
  {
    Join8("", "open", "exchange", "candles", pair, timeframe, from, to, '/');
    assert "/open/exchange/candles/" == "" + "/" + "open" + "/" + "exchange" + "/" + "candles" + "/";
  }

  lemma NoSlashInInt(i: int)
    ensures '/' !in IntToString(i)
  {
    IntToStringRoundTrip(i);
  }

  /**
   * The candle path has eight `/`-separated segments: empty, `open`, `exchange`,
   * `candles`, the pair, the timeframe, then `From` and `To`, each empty when absent
   * or falsy. An integer bound reads back as the same integer.
   */
  lemma CandlePathSegments(pair: string, timeframe: int, kwargs: map<string, Arg>)
    requires '/' !in pair
    requires !(Get(kwargs, "From").AStr? && '/' in Get(kwargs, "From").s)
    requires !(Get(kwargs, "To").AStr? && '/' in Get(kwargs, "To").s)
    ensures var segs := Split(CandlePath(pair, timeframe, kwargs), '/');
      segs == ["", "open", "exchange", "candles", pair, IntToString(timeframe),
               if Truthy(Get(kwargs, "From")) then Str(kwargs["From"]) else "",
               if Truthy(Get(kwargs, "To")) then Str(kwargs["To"]) else ""] &&
      ParseInt(segs[5]) == timeframe &&
      (Get(kwargs, "From").AInt? && Truthy(Get(kwargs, "From")) ==> ParseInt(segs[6]) == kwargs["From"].i)
  {
    var from, to := TimeBound(kwargs, "From"), TimeBound(kwargs, "To");
    NoSlashInInt(timeframe);
    IntToStringRoundTrip(timeframe);
    if Get(kwargs, "From").AInt? { NoSlashInInt(kwargs["From"].i); IntToStringRoundTrip(kwargs["From"].i); }
    if Get(kwargs, "To").AInt? { NoSlashInInt(kwargs["To"].i); }
    var segs := ["", "open", "exchange", "candles", pair, IntToString(timeframe), from, to];
    assert '/' !in from && '/' !in to;
    assert forall k :: 0 <= k < |segs| ==> '/' !in segs[k];
    CandlePathJoin(pair, IntToString(timeframe), from, to);
    SplitJoin(segs, '/');
  }
}
