/**
 * What the three order adapters (spot, USD-margined futures and
 * coin-margined futures) have in common. Their `newOrder`, `getOrder` and
 * `cancelOrder` bodies are line-for-line the same up to the client call;
 * the common steps are modelled here once and each venue module adds
 * its own request shape.
 */
module Adapter {
  import opened JsValues
  import opened PrettyPrint
  import opened Util

  /** The three markets the tool talks to, each through its own client. */
  datatype Venue = Spot | UsdM | CoinM

  /** The key and secret an adapter reads from its environment. */
  datatype Credentials = Credentials(apiKey: JsValue, apiSecret: JsValue)

  predicate Authorised(cred: Credentials)
  {
    Truthy(cred.apiKey) && Truthy(cred.apiSecret)
  }

  /** A request handed to a venue's SDK client: the client method and its arguments. */
  datatype Call = Call(venue: Venue, endpoint: string, args: seq<JsValue>)

  /**
   * What a handler does, as a value: refused by the credential gate,
   * refused by a usage check, stopped by a thrown TypeError, or a request
   * sent. `printed` are the lines written before the handler returns.
   */
  datatype Outcome =
    | Denied(printed: seq<Line>)
    | Rejected(printed: seq<Line>)
    | Crashed(printed: seq<Line>)
    | Sent(printed: seq<Line>, call: Call)

  /** The settled promise of a sent request. */
  datatype Reply = Resolved(data: JsValue) | Failed(error: JsValue)

  /**
   * The `.then(response => print(response.data)).catch(printError)` tail of
   * every request: one line, the payload on success and the error report
   * on failure.
   */
  function ReplyLines(reply: Reply): (out: seq<Line>)
    requires reply.Failed? ==> !IsNullish(reply.error)
    ensures |out| == 1
    ensures reply.Resolved? && IsTypeofObject(reply.data) ==> out[0].items == [Json(reply.data)]
    ensures reply.Resolved? && !IsTypeofObject(reply.data) ==> out[0].items == [Text(reply.data)]
    ensures reply.Failed? ==> out[0] == PrintError(reply.error, Undefined)[0]
  {
    match reply
    case Resolved(data) => Print(data, Undefined)
    case Failed(error) => PrintError(error, Undefined)
  }

  /** Everything a handler writes: its own lines, then exactly one reply line if and only if it sent a request. */
  function Transcript(o: Outcome, reply: Reply): (out: seq<Line>)
    requires reply.Failed? ==> !IsNullish(reply.error)
    ensures |out| == |o.printed| + (if o.Sent? then 1 else 0)
    ensures out[..|o.printed|] == o.printed
    ensures o.Sent? ==> out[|o.printed|] == ReplyLines(reply)[0]
  {
    if o.Sent? then o.printed + ReplyLines(reply) else o.printed
  }

  const SymbolRequired: string := "symbol is required. you can set it like: --symbol=BNBUSDT"
  const SideRequired: string := "side is required. you can set it like: --side=BUY"
  const TypeRequired: string := "order type is required. you can set it like: --type=LIMIT"
  const EitherIdRequired: string := "Either orderId or origClientOrderId must be sent."

  /** The report of the order-id guard, which no input reaches (see `OrderRefTruthy`). */
  const EitherIdDiagnostic: seq<Line> := PrintError(Str(EitherIdRequired), Undefined)

  /** The debugging line `console.log(side, type, qty)` each `newOrder` writes once past the gate. */
  function DebugLine(opts: map<string, JsValue>): Line
  {
    Line([Text(Get(opts, "side")), Text(Get(opts, "type")), Text(Get(opts, "qty"))])
  }

  /** The optional-parameter bag before normalisation, under the exchange's field names. */
  function OrderBag(opts: map<string, JsValue>): map<string, JsValue>
  {
    map["quantity" := Get(opts, "qty"), "price" := Get(opts, "price"),
        "timeInForce" := Get(opts, "tif"), "quoteOrderQty" := Get(opts, "quoteOrderQty")]
  }

  const BagFields: set<string> := {"quantity", "price", "timeInForce", "quoteOrderQty"}

  /**
   * The normalised bag renames qty to quantity and tif to timeInForce, keeps
   * price and quoteOrderQty, holds a field exactly when its option is not
   * empty, and never holds symbol, side or type.
   */
  lemma OrderBagFields(opts: map<string, JsValue>)
    ensures Normalized(OrderBag(opts)).Keys <= BagFields
    ensures "quantity" in Normalized(OrderBag(opts)) <==> !IsEmptyValue(Get(opts, "qty"))
    ensures "price" in Normalized(OrderBag(opts)) <==> !IsEmptyValue(Get(opts, "price"))
    ensures "timeInForce" in Normalized(OrderBag(opts)) <==> !IsEmptyValue(Get(opts, "tif"))
    ensures "quoteOrderQty" in Normalized(OrderBag(opts)) <==> !IsEmptyValue(Get(opts, "quoteOrderQty"))
    ensures "quantity" in Normalized(OrderBag(opts)) ==> Normalized(OrderBag(opts))["quantity"] == Get(opts, "qty")
    ensures "price" in Normalized(OrderBag(opts)) ==> Normalized(OrderBag(opts))["price"] == Get(opts, "price")
    ensures "timeInForce" in Normalized(OrderBag(opts)) ==> Normalized(OrderBag(opts))["timeInForce"] == Get(opts, "tif")
    ensures "quoteOrderQty" in Normalized(OrderBag(opts)) ==> Normalized(OrderBag(opts))["quoteOrderQty"] == Get(opts, "quoteOrderQty")
    ensures forall k :: k in Normalized(OrderBag(opts)) ==> !IsEmptyValue(Normalized(OrderBag(opts))[k])
    ensures "symbol" !in Normalized(OrderBag(opts)) && "side" !in Normalized(OrderBag(opts)) && "type" !in Normalized(OrderBag(opts))
  {
  }

  /** A validated order: the symbol as given, side and type upper-cased, and the normalised bag. */
  datatype Order = Order(symbol: JsValue, side: string, orderType: string, params: map<string, JsValue>)

  /** Where `newOrder` stands once its local checks are done: stopped with an outcome, or ready to send. */
  datatype Prepared = Stop(outcome: Outcome) | Ready(printed: seq<Line>, order: Order)

  function PreparedLines(p: Prepared): seq<Line>
  {
    if p.Stop? then p.outcome.printed else p.printed
  }

  /**
   * The local part of `newOrder`: the credential gate, then symbol, side and
   * type checked in that order with an early return on the first falsy one,
   * then upper-casing, which throws on a truthy side or type that is not a
   * string.
   */
  function OrderCheck(cred: Credentials, opts: map<string, JsValue>): (p: Prepared)
    ensures !Authorised(cred) ==> p == Stop(Denied(GateDiagnostic))
    ensures Authorised(cred) ==> |PreparedLines(p)| >= 1 && PreparedLines(p)[0] == DebugLine(opts)
    ensures p.Ready? <==> (Authorised(cred) && Truthy(Get(opts, "symbol")) && Truthy(Get(opts, "side"))
                           && Truthy(Get(opts, "type")) && Get(opts, "side").Str? && Get(opts, "type").Str?)
    ensures Authorised(cred) && !Truthy(Get(opts, "symbol"))
      ==> p == Stop(Rejected([DebugLine(opts)] + PrintError(Str(SymbolRequired), Undefined)))
    ensures Authorised(cred) && Truthy(Get(opts, "symbol")) && !Truthy(Get(opts, "side"))
      ==> p == Stop(Rejected([DebugLine(opts)] + PrintError(Str(SideRequired), Undefined)))
    ensures Authorised(cred) && Truthy(Get(opts, "symbol")) && Truthy(Get(opts, "side")) && !Truthy(Get(opts, "type"))
      ==> p == Stop(Rejected([DebugLine(opts)] + PrintError(Str(TypeRequired), Undefined)))
    ensures Authorised(cred) && Truthy(Get(opts, "symbol")) && Truthy(Get(opts, "side")) && Truthy(Get(opts, "type"))
            && !(Get(opts, "side").Str? && Get(opts, "type").Str?)
      ==> p == Stop(Crashed([DebugLine(opts)]))
    ensures p.Ready? ==> (p.printed == [DebugLine(opts)]
                          && p.order.symbol == Get(opts, "symbol")
                          && p.order.side == Upper(Get(opts, "side").s)
                          && p.order.orderType == Upper(Get(opts, "type").s)
                          && p.order.params == Normalized(OrderBag(opts)))
  {
    var gate := CheckKeyAndSecret(cred.apiKey, cred.apiSecret);
    if !gate.passed then Stop(Denied(gate.printed))
    else
      var debug := [DebugLine(opts)];
      var symbol, side, orderType := Get(opts, "symbol"), Get(opts, "side"), Get(opts, "type");
      if !Truthy(symbol) then Stop(Rejected(debug + PrintError(Str(SymbolRequired), Undefined)))
      else if !Truthy(side) then Stop(Rejected(debug + PrintError(Str(SideRequired), Undefined)))
      else if !Truthy(orderType) then Stop(Rejected(debug + PrintError(Str(TypeRequired), Undefined)))
      else if !side.Str? || !orderType.Str? then Stop(Crashed(debug))
      else Ready(debug, Order(symbol, Upper(side.s), Upper(orderType.s), Normalized(OrderBag(opts))))
  }

  /** Without credentials no validation message is written, whatever the options. */
  lemma GateSilencesValidation(cred: Credentials, opts: map<string, JsValue>)
    requires !Authorised(cred)
    ensures PreparedLines(OrderCheck(cred, opts)) == GateDiagnostic
    ensures OrderCheck(cred, opts).Stop? && OrderCheck(cred, opts).outcome.Denied?
  {
  }

  /**
   * The statements of `newOrder` up to the client call, step by step: the
   * bag is built as a fresh object, normalised in place by
   * `removeEmptyValue`, and the side and type are upper-cased.
   */
  method PrepareOrder(cred: Credentials, opts: map<string, JsValue>) returns (p: Prepared)
    ensures p == OrderCheck(cred, opts)
  {
    var gate := CheckKeyAndSecret(cred.apiKey, cred.apiSecret);
    if !gate.passed {
      return Stop(Denied(gate.printed));
    }
    var printed := [DebugLine(opts)];
    var symbol, side, orderType := Get(opts, "symbol"), Get(opts, "side"), Get(opts, "type");
    if !Truthy(symbol) {
      return Stop(Rejected(printed + PrintError(Str(SymbolRequired), Undefined)));
    }
    if !Truthy(side) {
      return Stop(Rejected(printed + PrintError(Str(SideRequired), Undefined)));
    }
    if !Truthy(orderType) {
      return Stop(Rejected(printed + PrintError(Str(TypeRequired), Undefined)));
    }
    var parameters := new JsObject(OrderBag(opts));
    parameters := RemoveEmptyValue(Ref(parameters));
    if !side.Str? || !orderType.Str? {
      return Stop(Crashed(printed));
    }
    p := Ready(printed, Order(symbol, Upper(side.s), Upper(orderType.s), parameters.props));
  }

  /**
   * The order reference `getOrder` and `cancelOrder` send: `{}` to start,
   * replaced by `{ orderId }` when the order id is truthy, then replaced by
   * `{ origClientOrderId }` when the client id is truthy.
   */
  function OrderRef(orderId: JsValue, clientId: JsValue): map<string, JsValue>
  {
    if Truthy(clientId) then map["origClientOrderId" := clientId]
    else if Truthy(orderId) then map["orderId" := orderId]
    else map[]
  }

  /** The id selection: the client id wins, the order id alone is sent alone, neither gives `{}`; never both. */
  lemma OrderRefChoice(orderId: JsValue, clientId: JsValue)
    ensures |OrderRef(orderId, clientId)| <= 1
    ensures Truthy(clientId) ==> OrderRef(orderId, clientId) == map["origClientOrderId" := clientId]
    ensures !Truthy(clientId) && Truthy(orderId) ==> OrderRef(orderId, clientId) == map["orderId" := orderId]
    ensures !Truthy(clientId) && !Truthy(orderId) ==> OrderRef(orderId, clientId) == map[]
    ensures forall k :: k in OrderRef(orderId, clientId) ==> Truthy(OrderRef(orderId, clientId)[k])
  {
  }

  /** `param` is an object, so `!param` is false: the "Either ..." guard can never fire. */
  lemma OrderRefTruthy(orderId: JsValue, clientId: JsValue)
    ensures Truthy(Obj(OrderRef(orderId, clientId)))
    ensures !Truthy(orderId) && !Truthy(clientId) ==> Obj(OrderRef(orderId, clientId)) == Obj(map[])
  {
  }

  /** The sequential overwrite of `param` as the source writes it. */
  method SelectOrderRef(orderId: JsValue, clientId: JsValue) returns (param: map<string, JsValue>)
    ensures param == OrderRef(orderId, clientId)
  {
    param := map[];
    if Truthy(orderId) {
      param := map["orderId" := orderId];
    }
    if Truthy(clientId) {
      param := map["origClientOrderId" := clientId];
    }
  }
}
