/**
 * The coin-margined futures order adapter. Its client takes one request
 * object per call, so the symbol, side and type are merged into the same
 * object as the optional parameters or the order reference. Credentials
 * are the futures key and secret, read into the client configuration.
 */
module CmTrade {
  import opened JsValues
  import opened PrettyPrint
  import opened Util
  import opened Adapter

  /** `account`: `accountInformation` with no arguments. */
  function Account(cred: Credentials): (o: Outcome)
    ensures o.Sent? <==> Authorised(cred)
    ensures o.Sent? ==> o == Sent([], Call(CoinM, "accountInformation", []))
    ensures !o.Sent? ==> o == Denied(GateDiagnostic)
  {
    var gate := CheckKeyAndSecret(cred.apiKey, cred.apiSecret);
    if gate.passed then Sent(gate.printed, Call(CoinM, "accountInformation", [])) else Denied(gate.printed)
  }

  /** `cancelAll`: `cancelAllOpenOrders({ symbol })`, an object holding the symbol and nothing else. */
  function CancelAll(cred: Credentials, symbol: JsValue): (o: Outcome)
    ensures o.Sent? <==> Authorised(cred)
    ensures o.Sent? ==> (o.call.endpoint == "cancelAllOpenOrders" && o.call.venue == CoinM && o.printed == []
                         && |o.call.args| == 1 && o.call.args[0].Obj? && o.call.args[0].props.Keys == {"symbol"}
                         && o.call.args[0].props["symbol"] == symbol)
    ensures !o.Sent? ==> o == Denied(GateDiagnostic)
  {
    var gate := CheckKeyAndSecret(cred.apiKey, cred.apiSecret);
    if gate.passed then Sent(gate.printed, Call(CoinM, "cancelAllOpenOrders", [Obj(map["symbol" := symbol])]))
    else Denied(gate.printed)
  }

  /** The object literal `{ symbol, side, type, ...parameters }`; later keys win, as in a spread. */
  function OrderRequest(ord: Order): map<string, JsValue>
  {
    map["symbol" := ord.symbol, "side" := Str(ord.side), "type" := Str(ord.orderType)] + ord.params
  }

  /**
   * The request object of a validated order holds exactly the symbol, the
   * upper-cased side and type, and the non-empty optional parameters; no
   * parameter can overwrite the first three.
   */
  lemma OrderRequestFields(cred: Credentials, opts: map<string, JsValue>)
    requires OrderCheck(cred, opts).Ready?
    ensures var body := OrderRequest(OrderCheck(cred, opts).order);
      && body.Keys == {"symbol", "side", "type"} + Normalized(OrderBag(opts)).Keys
      && body["symbol"] == Get(opts, "symbol")
      && body["side"] == Str(Upper(Get(opts, "side").s))
      && body["type"] == Str(Upper(Get(opts, "type").s))
      && forall k :: k in Normalized(OrderBag(opts)) ==> body[k] == Get(OrderBag(opts), k) && !IsEmptyValue(body[k])
  {
    OrderBagFields(opts);
    var ord := OrderCheck(cred, opts).order;
    assert ord.params == Normalized(OrderBag(opts));
    assert "symbol" !in ord.params && "side" !in ord.params && "type" !in ord.params;
  }

  /** `newOrder`: the shared local checks, then one request object. */
  method NewOrder(cred: Credentials, opts: map<string, JsValue>) returns (o: Outcome)
    ensures OrderCheck(cred, opts).Stop? ==> o == OrderCheck(cred, opts).outcome
    ensures OrderCheck(cred, opts).Ready? ==>
      o == Sent(OrderCheck(cred, opts).printed,
                Call(CoinM, "newOrder", [Obj(OrderRequest(OrderCheck(cred, opts).order))]))
  {
    var p := PrepareOrder(cred, opts);
    match p
    case Stop(outcome) =>
      o := outcome;
    case Ready(printed, ord) =>
      o := Sent(printed, Call(CoinM, "newOrder", [Obj(OrderRequest(ord))]));
  }

  /** The object literal `{ symbol, ...param }`. */
  function RefRequest(symbol: JsValue, param: map<string, JsValue>): map<string, JsValue>
  {
    map["symbol" := symbol] + param
  }

  /**
   * The request object of `queryOrder` and `cancelOrder` is the symbol plus
   * at most one id field, the client id when both are given.
   */
  lemma RefRequestFields(symbol: JsValue, orderId: JsValue, clientId: JsValue)
    ensures var body := RefRequest(symbol, OrderRef(orderId, clientId));
      && body["symbol"] == symbol
      && (Truthy(clientId) ==> body.Keys == {"symbol", "origClientOrderId"} && body["origClientOrderId"] == clientId)
      && (!Truthy(clientId) && Truthy(orderId) ==> body.Keys == {"symbol", "orderId"} && body["orderId"] == orderId)
      && (!Truthy(clientId) && !Truthy(orderId) ==> body.Keys == {"symbol"})
  {
    OrderRefChoice(orderId, clientId);
  }

  /** `getOrder`: `queryOrder({ symbol, ...param })`. */
  method GetOrder(cred: Credentials, symbol: JsValue, opts: map<string, JsValue>) returns (o: Outcome)
    ensures !Authorised(cred) ==> o == Denied(GateDiagnostic)
    ensures Authorised(cred) ==>
      o == Sent([], Call(CoinM, "queryOrder", [Obj(RefRequest(symbol, OrderRef(Get(opts, "orderId"), Get(opts, "origClientOrderId"))))]))
  {
    var gate := CheckKeyAndSecret(cred.apiKey, cred.apiSecret);
    if !gate.passed {
      return Denied(gate.printed);
    }
    var param := SelectOrderRef(Get(opts, "orderId"), Get(opts, "origClientOrderId"));
    if !Truthy(Obj(param)) {
      assert false;
      return Rejected(EitherIdDiagnostic);
    }
    o := Sent(gate.printed, Call(CoinM, "queryOrder", [Obj(RefRequest(symbol, param))]));
  }

  /** `cancelOrder`: `cancelOrder({ symbol, ...param })`. */
  method CancelOrder(cred: Credentials, symbol: JsValue, opts: map<string, JsValue>) returns (o: Outcome)
    ensures !Authorised(cred) ==> o == Denied(GateDiagnostic)
    ensures Authorised(cred) ==>
      o == Sent([], Call(CoinM, "cancelOrder", [Obj(RefRequest(symbol, OrderRef(Get(opts, "orderId"), Get(opts, "origClientOrderId"))))]))
  {
    var gate := CheckKeyAndSecret(cred.apiKey, cred.apiSecret);
    if !gate.passed {
      return Denied(gate.printed);
    }
    var param := SelectOrderRef(Get(opts, "orderId"), Get(opts, "origClientOrderId"));
    if !Truthy(Obj(param)) {
      assert false;
      return Rejected(EitherIdDiagnostic);
    }
    o := Sent(gate.printed, Call(CoinM, "cancelOrder", [Obj(RefRequest(symbol, param))]));
  }
}
