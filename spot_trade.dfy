/**
 * The spot order adapter: five handlers behind the key-and-secret gate,
 * each producing the request it would hand to the spot SDK client.
 * Credentials are the spot key and secret.
 */
module SpotTrade {
  import opened JsValues
  import opened PrettyPrint
  import opened Util
  import opened Adapter

  /** `account`: the account snapshot, asked for with no arguments. */
  function Account(cred: Credentials): (o: Outcome)
    ensures o.Sent? <==> Authorised(cred)
    ensures o.Sent? ==> o == Sent([], Call(Spot, "account", []))
    ensures !o.Sent? ==> o == Denied(GateDiagnostic)
  {
    var gate := CheckKeyAndSecret(cred.apiKey, cred.apiSecret);
    if gate.passed then Sent(gate.printed, Call(Spot, "account", [])) else Denied(gate.printed)
  }

  /** `cancelAll`: cancels every open order of one symbol; the symbol is all that is sent. */
  function CancelAll(cred: Credentials, symbol: JsValue): (o: Outcome)
    ensures o.Sent? <==> Authorised(cred)
    ensures o.Sent? ==> o == Sent([], Call(Spot, "cancelOpenOrders", [symbol]))
    ensures !o.Sent? ==> o == Denied(GateDiagnostic)
  {
    var gate := CheckKeyAndSecret(cred.apiKey, cred.apiSecret);
    if gate.passed then Sent(gate.printed, Call(Spot, "cancelOpenOrders", [symbol])) else Denied(gate.printed)
  }

  /**
   * `newOrder`: the shared local checks, then the positional request
   * `newOrder(symbol, SIDE, TYPE, parameters)`.
   */
  method NewOrder(cred: Credentials, opts: map<string, JsValue>) returns (o: Outcome)
    ensures OrderCheck(cred, opts).Stop? ==> o == OrderCheck(cred, opts).outcome
    ensures OrderCheck(cred, opts).Ready? ==>
      var ord := OrderCheck(cred, opts).order;
      o == Sent(OrderCheck(cred, opts).printed,
                Call(Spot, "newOrder", [ord.symbol, Str(ord.side), Str(ord.orderType), Obj(ord.params)]))
  {
    var p := PrepareOrder(cred, opts);
    match p
    case Stop(outcome) =>
      o := outcome;
    case Ready(printed, ord) =>
      o := Sent(printed, Call(Spot, "newOrder", [ord.symbol, Str(ord.side), Str(ord.orderType), Obj(ord.params)]));
  }

  /** `getOrder`: the symbol and the selected order reference. */
  method GetOrder(cred: Credentials, symbol: JsValue, opts: map<string, JsValue>) returns (o: Outcome)
    ensures !Authorised(cred) ==> o == Denied(GateDiagnostic)
    ensures Authorised(cred) ==>
      o == Sent([], Call(Spot, "getOrder", [symbol, Obj(OrderRef(Get(opts, "orderId"), Get(opts, "origClientOrderId")))]))
  {
    var gate := CheckKeyAndSecret(cred.apiKey, cred.apiSecret);
    if !gate.passed {
      return Denied(gate.printed);
    }
    var param := SelectOrderRef(Get(opts, "orderId"), Get(opts, "origClientOrderId"));
    if !Truthy(Obj(param)) {
      assert false;
      return Rejected(EitherIdDiagnostic);
    }
    o := Sent(gate.printed, Call(Spot, "getOrder", [symbol, Obj(param)]));
  }

  /** `cancelOrder`: the symbol and the selected order reference. */
  method CancelOrder(cred: Credentials, symbol: JsValue, opts: map<string, JsValue>) returns (o: Outcome)
    ensures !Authorised(cred) ==> o == Denied(GateDiagnostic)
    ensures Authorised(cred) ==>
      o == Sent([], Call(Spot, "cancelOrder", [symbol, Obj(OrderRef(Get(opts, "orderId"), Get(opts, "origClientOrderId")))]))
  {
    var gate := CheckKeyAndSecret(cred.apiKey, cred.apiSecret);
    if !gate.passed {
      return Denied(gate.printed);
    }
    var param := SelectOrderRef(Get(opts, "orderId"), Get(opts, "origClientOrderId"));
    if !Truthy(Obj(param)) {
      assert false;
      return Rejected(EitherIdDiagnostic);
    }
    o := Sent(gate.printed, Call(Spot, "cancelOrder", [symbol, Obj(param)]));
  }
}
