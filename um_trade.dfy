/**
 * The USD-margined futures order adapter: the spot adapter's five handlers
 * against the USD-margined client, with its own method names. Credentials
 * are the futures key and secret, although the gate's diagnostic still
 * names the spot variables (`UmGateNamesSpotVariables`).
 */
module UmTrade {
  import opened JsValues
  import opened PrettyPrint
  import opened Util
  import opened Adapter

  /** `account`: the account snapshot (`getAccountInformationV2`), asked for with no arguments. */
  function Account(cred: Credentials): (o: Outcome)
    ensures o.Sent? <==> Authorised(cred)
    ensures o.Sent? ==> o == Sent([], Call(UsdM, "getAccountInformationV2", []))
    ensures !o.Sent? ==> o == Denied(GateDiagnostic)
  {
    var gate := CheckKeyAndSecret(cred.apiKey, cred.apiSecret);
    if gate.passed then Sent(gate.printed, Call(UsdM, "getAccountInformationV2", [])) else Denied(gate.printed)
  }

  /** `cancelAll`: `cancelAllOpenOrders` for one symbol; the symbol is all that is sent. */
  function CancelAll(cred: Credentials, symbol: JsValue): (o: Outcome)
    ensures o.Sent? <==> Authorised(cred)
    ensures o.Sent? ==> o == Sent([], Call(UsdM, "cancelAllOpenOrders", [symbol]))
    ensures !o.Sent? ==> o == Denied(GateDiagnostic)
  {
    var gate := CheckKeyAndSecret(cred.apiKey, cred.apiSecret);
    if gate.passed then Sent(gate.printed, Call(UsdM, "cancelAllOpenOrders", [symbol])) else Denied(gate.printed)
  }

  /**
   * `newOrder`: the shared local checks, then the positional request
   * `newOrder(symbol, SIDE, TYPE, parameters)`.
   */
  method NewOrder(cred: Credentials, opts: map<string, JsValue>) returns (o: Outcome)
    ensures OrderCheck(cred, opts).Stop? ==> o == OrderCheck(cred, opts).outcome
    ensures OrderCheck(cred, opts).Ready? ==>
      var ord := OrderCheck(cred, opts).order;
      o == Sent(OrderCheck(cred, opts).printed,
                Call(UsdM, "newOrder", [ord.symbol, Str(ord.side), Str(ord.orderType), Obj(ord.params)]))
  {
    var p := PrepareOrder(cred, opts);
    match p
    case Stop(outcome) =>
      o := outcome;
    case Ready(printed, ord) =>
      o := Sent(printed, Call(UsdM, "newOrder", [ord.symbol, Str(ord.side), Str(ord.orderType), Obj(ord.params)]));
  }

  /** `getOrder`: `queryOrder` with the symbol and the selected order reference. */
  method GetOrder(cred: Credentials, symbol: JsValue, opts: map<string, JsValue>) returns (o: Outcome)
    ensures !Authorised(cred) ==> o == Denied(GateDiagnostic)
    ensures Authorised(cred) ==>
      o == Sent([], Call(UsdM, "queryOrder", [symbol, Obj(OrderRef(Get(opts, "orderId"), Get(opts, "origClientOrderId")))]))
  {
    var gate := CheckKeyAndSecret(cred.apiKey, cred.apiSecret);
    if !gate.passed {
      return Denied(gate.printed);
    }
    var param := SelectOrderRef(Get(opts, "orderId"), Get(opts, "origClientOrderId"));
    if !Truthy(Obj(param)) {
      assert false;
      return Rejected(EitherIdDiagnostic);
    }
    o := Sent(gate.printed, Call(UsdM, "queryOrder", [symbol, Obj(param)]));
  }

  /** `cancelOrder`: the symbol and the selected order reference. */
  method CancelOrder(cred: Credentials, symbol: JsValue, opts: map<string, JsValue>) returns (o: Outcome)
    ensures !Authorised(cred) ==> o == Denied(GateDiagnostic)
    ensures Authorised(cred) ==>
      o == Sent([], Call(UsdM, "cancelOrder", [symbol, Obj(OrderRef(Get(opts, "orderId"), Get(opts, "origClientOrderId")))]))
  {
    var gate := CheckKeyAndSecret(cred.apiKey, cred.apiSecret);
    if !gate.passed {
      return Denied(gate.printed);
    }
    var param := SelectOrderRef(Get(opts, "orderId"), Get(opts, "origClientOrderId"));
    if !Truthy(Obj(param)) {
      assert false;
      return Rejected(EitherIdDiagnostic);
    }
    o := Sent(gate.printed, Call(UsdM, "cancelOrder", [symbol, Obj(param)]));
  }

  /**
   * Every refused USD-margined handler prints the gate's one line, whose
   * message names the spot variables and neither of the futures variables
   * this adapter reads.
   */
  lemma UmGateNamesSpotVariables(cred: Credentials, symbol: JsValue, opts: map<string, JsValue>)
    requires !Authorised(cred)
    ensures Account(cred) == CancelAll(cred, symbol) == Denied(GateDiagnostic)
    ensures OrderCheck(cred, opts) == Stop(Denied(GateDiagnostic))
    ensures GateDiagnostic == [Line([Text(Str(KeyAndSecretMissing)), Text(Str(""))])]
    ensures Mentions(KeyAndSecretMissing, "BINANCE_API_KEY") && Mentions(KeyAndSecretMissing, "BINANCE_API_SECRET")
    ensures !Mentions(KeyAndSecretMissing, "BINANCE_FUTURES_API_KEY")
    ensures !Mentions(KeyAndSecretMissing, "BINANCE_FUTURES_API_SECRET")
  {
    DiagnosticNamesSpotVariables();
  }
}
