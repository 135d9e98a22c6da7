/**
 * The executable's front end: finding the command a word names (the
 * parser takes the first registered command whose name or alias is the
 * word), checking options and required arguments, wiring the handler's
 * arguments as each `.action` callback does, and running the order
 * handlers with the credentials of the handler's venue.
 */
module Cli {
  import opened JsValues
  import opened PrettyPrint
  import opened Util
  import opened Adapter
  import opened CommandTable
  import SpotTrade
  import UmTrade
  import CmTrade

  datatype Option<T> = None | Some(value: T)

  /** The first entry at or after `k` that answers to `w`. */
  function LookupFrom(reg: seq<CommandSpec>, w: string, k: nat): (r: Option<nat>)
    requires k <= |reg|
    ensures r.Some? ==> k <= r.value < |reg| && w in Words(reg[r.value])
    ensures r.Some? ==> forall j :: k <= j < r.value ==> w !in Words(reg[j])
    ensures r.None? ==> forall j :: k <= j < |reg| ==> w !in Words(reg[j])
    decreases |reg| - k
  {
    if k == |reg| then None
    else if w in Words(reg[k]) then Some(k)
    else LookupFrom(reg, w, k + 1)
  }

  /** The command a word names: the first registered one answering to it. */
  function Lookup(reg: seq<CommandSpec>, w: string): (r: Option<CommandSpec>)
    ensures r.Some? ==> r.value in reg && w in Words(r.value)
    ensures r.None? ==> forall s :: s in reg ==> w !in Words(s)
  {
    var i := LookupFrom(reg, w, 0);
    if i.Some? then Some(reg[i.value]) else None
  }

  /** In a table with unique words, a word finds exactly the entry that lists it. */
  lemma {:induction false} LookupUnique(reg: seq<CommandSpec>, k: int, w: string)
    requires UniqueWords(reg)
    requires 0 <= k < |reg| && w in Words(reg[k])
    ensures Lookup(reg, w) == Some(reg[k])
  {
    var i := LookupFrom(reg, w, 0);
    assert i.Some?;
    assert i.value == k;
  }

  /** A registered command is found by every one of its words. */
  lemma {:induction false} FoundByEveryWord(v: Venue, c: Command, w: string)
    requires c in CommandsOf(v) && w in Words(Spec(v, c))
    ensures Lookup(Registry(), w) == Some(Spec(v, c))
  {
    RegistryWordsUnique();
    EntryListed(v, c);
    var k :| 0 <= k < |Registry()| && Registry()[k] == Spec(v, c);
    LookupUnique(Registry(), k, w);
  }

  /**
   * Each prefix routes to its own venue: `um_` words reach the USD-margined
   * handlers, `cm_` words the coin-margined ones, all other words the spot
   * ones.
   */
  lemma {:induction false} PrefixRoutes(w: string)
    requires Lookup(Registry(), w).Some?
    ensures Lookup(Registry(), w).value.handler.venue == VenueOfWord(w)
  {
    var s := Lookup(Registry(), w).value;
    var k :| 0 <= k < |Registry()| && Registry()[k] == s;
    RegistryEntryShape(k);
    var v, c := s.handler.venue, s.command;
    WordsOfSpec(v, c);
    InPrefixed(v, BaseWords(c), w);
    var b :| b in BaseWords(c) && w == Prefix(v) + b;
    VenueOfPrefixed(v, c, b);
  }

  /** The handler call an `.action` callback makes. */
  datatype Invocation = Invocation(handler: Handler, args: seq<JsValue>)

  /** What the parser does with a command line: a usage error, or a handler invocation. */
  datatype Dispatched = UnknownCommand | UnknownOption | MissingArgument(name: string) | Invoke(inv: Invocation)

  function OptionNames(s: CommandSpec): set<string>
  {
    set o | o in s.options :: o.long
  }

  /** The number of leading required arguments. */
  function RequiredCount(args: seq<Argument>): (n: nat)
    ensures n <= |args|
    ensures forall i :: 0 <= i < n ==> args[i].Required?
    ensures n < |args| ==> !args[n].Required?
  {
    if args == [] || !args[0].Required? then 0 else 1 + RequiredCount(args[1..])
  }

  /** The `i`th positional word, or `undefined` when there is none. */
  function Positional(words: seq<string>, i: nat): JsValue
  {
    if i < |words| then Str(words[i]) else Undefined
  }

  /** The arguments an `.action` callback passes to its handler. */
  function Wire(w: Wiring, words: seq<string>, opts: map<string, JsValue>): seq<JsValue>
  {
    match w
    case NoArgs => []
    case OptionBag => [Obj(opts)]
    case SymbolOnly => [Positional(words, 0)]
    case SymbolAndOptions => [Positional(words, 0), Obj(opts)]
    case SymbolAndLimit => [Positional(words, 0), Get(opts, "limit")]
    case SymbolIntervalAndOptions => [Positional(words, 0), Positional(words, 1), Obj(opts)]
    case SideAndOptions(side) => [Obj(map["side" := Str(side)] + opts)]
    case StreamList => [Arr(seq(|words|, i requires 0 <= i < |words| => Str(words[i])))]
  }

  /**
   * One command line: the command word, the positional words after it and
   * the parsed options by long name. Unknown options are reported before
   * missing arguments; surplus positional words are ignored.
   */
  function Dispatch(reg: seq<CommandSpec>, word: string, words: seq<string>, opts: map<string, JsValue>): (d: Dispatched)
    ensures d == UnknownCommand <==> Lookup(reg, word).None?
    ensures d == UnknownOption <==> (Lookup(reg, word).Some? && !(opts.Keys <= OptionNames(Lookup(reg, word).value)))
    ensures d.MissingArgument? <==> (Lookup(reg, word).Some?
                                     && opts.Keys <= OptionNames(Lookup(reg, word).value)
                                     && |words| < RequiredCount(Lookup(reg, word).value.arguments))
    ensures d.MissingArgument? ==> d.name == Lookup(reg, word).value.arguments[|words|].name
    ensures d.Invoke? <==> (Lookup(reg, word).Some?
                            && opts.Keys <= OptionNames(Lookup(reg, word).value)
                            && |words| >= RequiredCount(Lookup(reg, word).value.arguments))
    ensures d.Invoke? ==> d.inv.handler == Lookup(reg, word).value.handler
    ensures d.Invoke? ==> d.inv.args == Wire(Lookup(reg, word).value.wiring, words, opts)
  {
    match Lookup(reg, word)
    case None => UnknownCommand
    case Some(s) =>
      if !(opts.Keys <= OptionNames(s)) then UnknownOption
      else if |words| < RequiredCount(s.arguments) then MissingArgument(s.arguments[|words|].name)
      else Invoke(Invocation(s.handler, Wire(s.wiring, words, opts)))
  }

  // ---- dispatch for each wiring shape, in any table ----

  /** A command taking only a symbol and forwarding `args.limit` hands its handler the two. */
  lemma SymbolLimitDispatch(reg: seq<CommandSpec>, w: string, s: CommandSpec, symbol: string, opts: map<string, JsValue>)
    requires Lookup(reg, w) == Some(s)
    requires s.arguments == [Required("symbol")] && s.wiring == SymbolAndLimit && opts.Keys <= OptionNames(s)
    ensures Dispatch(reg, w, [symbol], opts) == Invoke(Invocation(s.handler, [Str(symbol), Get(opts, "limit")]))
  {
  }

  /** A command with no arguments and no options runs its handler with nothing, whatever words follow. */
  lemma NoArgsDispatch(reg: seq<CommandSpec>, w: string, s: CommandSpec, words: seq<string>)
    requires Lookup(reg, w) == Some(s)
    requires s.arguments == [] && s.wiring == NoArgs
    ensures Dispatch(reg, w, words, map[]) == Invoke(Invocation(s.handler, []))
  {
  }

  /** A command taking a symbol and an interval needs both, and passes them before the option bag. */
  lemma IntervalDispatch(reg: seq<CommandSpec>, w: string, s: CommandSpec, symbol: string, interval: string,
                         opts: map<string, JsValue>)
    requires Lookup(reg, w) == Some(s)
    requires s.arguments == [Required("symbol"), Required("interval")] && s.wiring == SymbolIntervalAndOptions
    requires opts.Keys <= OptionNames(s)
    ensures Dispatch(reg, w, [symbol, interval], opts) == Invoke(Invocation(s.handler, [Str(symbol), Str(interval), Obj(opts)]))
    ensures Dispatch(reg, w, [symbol], opts) == MissingArgument("interval")
  {
  }

  /** buy and sell's wiring: the side written over the option bag. */
  lemma SideDispatch(reg: seq<CommandSpec>, w: string, s: CommandSpec, side: string, opts: map<string, JsValue>)
    requires Lookup(reg, w) == Some(s)
    requires s.arguments == [] && s.wiring == SideAndOptions(side) && opts.Keys <= OptionNames(s)
    ensures Dispatch(reg, w, [], opts) == Invoke(Invocation(s.handler, [Obj(map["side" := Str(side)] + opts)]))
  {
  }

  // ---- registered facts the scenarios below rely on ----

  lemma OrderBookSpec(v: Venue)
    ensures Words(Spec(v, OrderBook)) == [Prefix(v) + "order_book", Prefix(v) + "ob", Prefix(v) + "book"]
    ensures Spec(v, OrderBook).arguments == [Required("symbol")]
    ensures OptionNames(Spec(v, OrderBook)) == {"limit"}
    ensures Spec(v, OrderBook).handler == Handler(v, Market, "depth")
    ensures Spec(v, OrderBook).wiring == SymbolAndLimit
  {
    assert Spec(v, OrderBook).options[0].long == "limit";
  }

  lemma TradesSpec(v: Venue)
    ensures Words(Spec(v, Trades)) == [Prefix(v) + "trades"]
    ensures Spec(v, Trades).arguments == [Required("symbol")]
    ensures OptionNames(Spec(v, Trades)) == {"limit"}
    ensures Spec(v, Trades).handler == Handler(v, Market, "trades")
    ensures Spec(v, Trades).wiring == SymbolAndLimit
  {
    assert Spec(v, Trades).options[0].long == "limit";
  }

  lemma TimeSpec(v: Venue)
    ensures Words(Spec(v, Time)) == [Prefix(v) + "time", Prefix(v) + "t"]
    ensures Spec(v, Time).arguments == []
    ensures OptionNames(Spec(v, Time)) == {}
    ensures Spec(v, Time).handler == Handler(v, Market, "time")
    ensures Spec(v, Time).wiring == NoArgs
  {
  }

  lemma KlinesSpec(v: Venue)
    ensures Words(Spec(v, Klines)) == [Prefix(v) + "klines", Prefix(v) + "k"]
    ensures Spec(v, Klines).arguments == [Required("symbol"), Required("interval")]
    ensures OptionNames(Spec(v, Klines)) == {"limit", "startTime", "endTime"}
    ensures Spec(v, Klines).handler == Handler(v, Market, "klines")
    ensures Spec(v, Klines).wiring == SymbolIntervalAndOptions
  {
    var o := Spec(v, Klines).options;
    assert o[0].long == "limit" && o[1].long == "startTime" && o[2].long == "endTime";
  }

  /** buy and sell: no positional argument, six options (none of them `side`), each with an optional value. */
  lemma OrderSpec(v: Venue, c: Command)
    requires c == Buy || c == Sell
    ensures Words(Spec(v, c)) == [Prefix(v) + BaseName(c)]
    ensures Spec(v, c).arguments == []
    ensures OptionNames(Spec(v, c)) == {"symbol", "type", "qty", "price", "tif", "quoteOrderQty"}
    ensures Spec(v, c).options[1] == OptionSpec("type", true)
    ensures Spec(v, c).handler == Handler(v, Trade, "newOrder")
    ensures Spec(v, c).wiring == SideAndOptions(if c == Buy then "BUY" else "SELL")
  {
    var o := Spec(v, c).options;
    assert o[0].long == "symbol" && o[1].long == "type" && o[2].long == "qty";
    assert o[3].long == "price" && o[4].long == "tif" && o[5].long == "quoteOrderQty";
  }

  // ---- scenarios ----

  /** Every word of `order_book` (`ob`, `book`) runs the same depth handler with only the limit. */
  lemma {:induction false} OrderBookWords(v: Venue, symbol: string, opts: map<string, JsValue>)
    requires opts.Keys <= {"limit"}
    ensures Dispatch(Registry(), Prefix(v) + "order_book", [symbol], opts)
         == Dispatch(Registry(), Prefix(v) + "ob", [symbol], opts)
         == Dispatch(Registry(), Prefix(v) + "book", [symbol], opts)
         == Invoke(Invocation(Handler(v, Market, "depth"), [Str(symbol), Get(opts, "limit")]))
  {
    OrderBookSpec(v);
    var s := Spec(v, OrderBook);
    FoundByEveryWord(v, OrderBook, Prefix(v) + "order_book");
    SymbolLimitDispatch(Registry(), Prefix(v) + "order_book", s, symbol, opts);
    FoundByEveryWord(v, OrderBook, Prefix(v) + "ob");
    SymbolLimitDispatch(Registry(), Prefix(v) + "ob", s, symbol, opts);
    FoundByEveryWord(v, OrderBook, Prefix(v) + "book");
    SymbolLimitDispatch(Registry(), Prefix(v) + "book", s, symbol, opts);
  }

  /**
   * The trades commands forward `args.limit` alone, as the order book
   * commands do: the given limit, or `undefined` when `-l` is omitted, so
   * that the handler's own default applies.
   */
  lemma {:induction false} LimitForwarded(v: Venue, symbol: string, opts: map<string, JsValue>)
    requires opts.Keys <= {"limit"}
    ensures Dispatch(Registry(), Prefix(v) + "trades", [symbol], opts)
         == Invoke(Invocation(Handler(v, Market, "trades"),
                              [Str(symbol), if "limit" in opts then opts["limit"] else Undefined]))
  {
    TradesSpec(v);
    FoundByEveryWord(v, Trades, Prefix(v) + "trades");
    SymbolLimitDispatch(Registry(), Prefix(v) + "trades", Spec(v, Trades), symbol, opts);
  }

  /**
   * `t` is the alias of `time`, and `trades` has no alias, so `t <symbol>`
   * asks for the server time (the surplus word is ignored); likewise with
   * the `um_` and `cm_` prefixes.
   */
  lemma {:induction false} TimeOwnsT(v: Venue, symbol: string)
    ensures Lookup(Registry(), Prefix(v) + "t") == Some(Spec(v, Time))
    ensures Words(Spec(v, Trades)) == [Prefix(v) + "trades"]
    ensures Dispatch(Registry(), Prefix(v) + "t", [symbol], map[]) == Invoke(Invocation(Handler(v, Market, "time"), []))
  {
    TimeSpec(v);
    TradesSpec(v);
    assert SpotCommands[16] == Time && FuturesCommands[0] == Time;
    FoundByEveryWord(v, Time, Prefix(v) + "t");
    NoArgsDispatch(Registry(), Prefix(v) + "t", Spec(v, Time), [symbol]);
  }

  /** klines hands its handler the symbol, then the interval, then the option bag; the interval is required. */
  lemma {:induction false} KlinesArgumentOrder(v: Venue, symbol: string, interval: string, opts: map<string, JsValue>)
    requires opts.Keys <= {"limit", "startTime", "endTime"}
    ensures Dispatch(Registry(), Prefix(v) + "klines", [symbol, interval], opts)
         == Invoke(Invocation(Handler(v, Market, "klines"), [Str(symbol), Str(interval), Obj(opts)]))
    ensures Dispatch(Registry(), Prefix(v) + "klines", [symbol], opts) == MissingArgument("interval")
  {
    KlinesSpec(v);
    FoundByEveryWord(v, Klines, Prefix(v) + "klines");
    IntervalDispatch(Registry(), Prefix(v) + "klines", Spec(v, Klines), symbol, interval, opts);
  }

  /** buy and sell invoke their venue's `newOrder` with the side written over the option bag. */
  lemma {:induction false} OrderDispatch(v: Venue, c: Command, opts: map<string, JsValue>)
    requires c == Buy || c == Sell
    requires opts.Keys <= {"symbol", "type", "qty", "price", "tif", "quoteOrderQty"}
    ensures Dispatch(Registry(), Prefix(v) + BaseName(c), [], opts)
         == Invoke(Invocation(Handler(v, Trade, "newOrder"), [Obj(map["side" := Str(if c == Buy then "BUY" else "SELL")] + opts)]))
  {
    OrderSpec(v, c);
    FoundByEveryWord(v, c, Prefix(v) + BaseName(c));
    SideDispatch(Registry(), Prefix(v) + BaseName(c), Spec(v, c), if c == Buy then "BUY" else "SELL", opts);
  }

  /**
   * With the side set to BUY or SELL and no `side` among the options, the
   * side check cannot fail: whether the order is sent depends on the
   * credentials, the symbol and the type alone, and a sent order carries
   * that side.
   */
  lemma {:induction false} SideSurvives(side: string, opts: map<string, JsValue>, cred: Credentials)
    requires side == "BUY" || side == "SELL"
    requires "side" !in opts
    ensures var bag := map["side" := Str(side)] + opts;
      && Get(bag, "side") == Str(side)
      && (OrderCheck(cred, bag).Ready? <==> (Authorised(cred) && Truthy(Get(opts, "symbol"))
                                             && Truthy(Get(opts, "type")) && Get(opts, "type").Str?))
      && (OrderCheck(cred, bag).Ready? ==> OrderCheck(cred, bag).order.side == side)
  {
    var bag := map["side" := Str(side)] + opts;
    assert Get(bag, "symbol") == Get(opts, "symbol") && Get(bag, "type") == Get(opts, "type");
    assert Upper(side) == side;
  }

  /** The side `buy` and `sell` write over the option bag. */
  function SideOf(c: Command): string
  {
    if c == Buy then "BUY" else "SELL"
  }

  /**
   * What buy and sell send, from the bag their callback builds: an order is
   * sent iff the credentials are truthy and the symbol and a string type
   * are given, and it goes to the venue's `newOrder` carrying the command's
   * side, the symbol, the upper-cased type and the normalised optional
   * parameters.
   */
  lemma {:induction false} OrderSent(cred: Credentials, v: Venue, c: Command, opts: map<string, JsValue>, o: Outcome)
    requires c == Buy || c == Sell
    requires "side" !in opts
    requires Performs(cred, v, c, [Obj(map["side" := Str(SideOf(c))] + opts)], o)
    ensures o.Sent? <==> (Authorised(cred) && Truthy(Get(opts, "symbol"))
                          && Truthy(Get(opts, "type")) && Get(opts, "type").Str?)
    ensures o.Sent? ==> o.call == Call(v, "newOrder", OrderArgs(v, Order(Get(opts, "symbol"), SideOf(c),
                                                                          Upper(Get(opts, "type").s), Normalized(OrderBag(opts)))))
    ensures o.Sent? && v != CoinM ==> o.call.args[1] == Str(SideOf(c))
    ensures o.Sent? && v == CoinM ==> o.call.args[0].props["side"] == Str(SideOf(c))
  {
    var bag := map["side" := Str(SideOf(c))] + opts;
    SideSurvives(SideOf(c), opts, cred);
    assert OrderBag(bag) == OrderBag(opts);
    var chk := OrderCheck(cred, bag);
    if chk.Ready? {
      OrderBagFields(opts);
      assert "side" !in chk.order.params;
    }
  }

  /**
   * `-t` takes an optional value, so a bare `-t` gives `type = true` in the
   * bag `buy` builds; that order passes the three checks and throws at
   * `type.toUpperCase()`.
   */
  lemma {:induction false} BareTypeFlagCrashes(symbol: string, cred: Credentials)
    requires symbol != "" && Authorised(cred)
    ensures var bag := map["side" := Str("BUY")] + map["symbol" := Str(symbol), "type" := Bool(true)];
      OrderCheck(cred, bag) == Stop(Crashed([DebugLine(bag)]))
  {
    var bag := map["side" := Str("BUY")] + map["symbol" := Str(symbol), "type" := Bool(true)];
    assert Get(bag, "symbol") == Str(symbol) && Get(bag, "side") == Str("BUY") && Get(bag, "type") == Bool(true);
  }

  // ---- running a command ----

  /** The process environment: the spot key and secret, and the futures key and secret. */
  datatype Env = Env(spotKey: JsValue, spotSecret: JsValue, futuresKey: JsValue, futuresSecret: JsValue)

  /** Both futures adapters read the futures variables; the spot adapter reads the spot ones. */
  function CredentialsFor(env: Env, v: Venue): Credentials
  {
    if v == Spot then Credentials(env.spotKey, env.spotSecret) else Credentials(env.futuresKey, env.futuresSecret)
  }

  /** The effect of one command line: a usage error, a market or stream handler called, or an order handler's outcome. */
  datatype Effect = UsageError(d: Dispatched) | Delegated(inv: Invocation) | Handled(outcome: Outcome)

  /** The client method each order handler calls, by venue. */
  function Endpoint(v: Venue, c: Command): string
  {
    match c
    case Account => (match v case Spot => "account" case UsdM => "getAccountInformationV2" case CoinM => "accountInformation")
    case GetOrder => if v == Spot then "getOrder" else "queryOrder"
    case CancelOrder => "cancelOrder"
    case CancelAll => if v == Spot then "cancelOpenOrders" else "cancelAllOpenOrders"
    case _ => "newOrder"
  }

  /**
   * The arguments of a validated order's call: positional on spot and
   * USD-margined futures, one merged request object on coin-margined futures.
   */
  function OrderArgs(v: Venue, ord: Order): seq<JsValue>
  {
    if v == CoinM then [Obj(CmTrade.OrderRequest(ord))]
    else [ord.symbol, Str(ord.side), Str(ord.orderType), Obj(ord.params)]
  }

  /** The arguments of `getOrder`/`cancelOrder`: the symbol and the order reference, merged on coin-margined futures. */
  function RefArgs(v: Venue, symbol: JsValue, ref: map<string, JsValue>): seq<JsValue>
  {
    if v == CoinM then [Obj(CmTrade.RefRequest(symbol, ref))] else [symbol, Obj(ref)]
  }

  /** The arguments of `cancelAll`: the symbol, wrapped in `{ symbol }` on coin-margined futures. */
  function SymbolArgs(v: Venue, symbol: JsValue): seq<JsValue>
  {
    if v == CoinM then [Obj(map["symbol" := symbol])] else [symbol]
  }

  /** The handler arguments an order command's `.action` callback can pass. */
  predicate Fits(c: Command, args: seq<JsValue>)
  {
    match c
    case Account => true
    case Buy | Sell => |args| >= 1 && args[0].Obj?
    case GetOrder | CancelOrder => |args| >= 2 && args[1].Obj?
    case CancelAll => |args| >= 1
    case _ => false
  }

  /**
   * What the order handler `c` of venue `v` does with the arguments its
   * callback passes: the gate's diagnostic without credentials; for an
   * order, the outcome of the shared checks, or the validated order sent
   * in the venue's request shape; for the other four, the venue's call
   * with the symbol and, for `getOrder`/`cancelOrder`, the selected order
   * reference.
   */
  predicate Performs(cred: Credentials, v: Venue, c: Command, args: seq<JsValue>, o: Outcome)
    requires Fits(c, args)
  {
    match c
    case Buy | Sell =>
      var chk := OrderCheck(cred, args[0].props);
      o == (if chk.Stop? then chk.outcome else Sent(chk.printed, Call(v, Endpoint(v, c), OrderArgs(v, chk.order))))
    case GetOrder | CancelOrder =>
      var ref := OrderRef(Get(args[1].props, "orderId"), Get(args[1].props, "origClientOrderId"));
      o == Gated(cred, Call(v, Endpoint(v, c), RefArgs(v, args[0], ref)))
    case CancelAll => o == Gated(cred, Call(v, Endpoint(v, c), SymbolArgs(v, args[0])))
    case Account => o == Gated(cred, Call(v, Endpoint(v, c), []))
    case _ => false
  }

  /** A request behind the key-and-secret gate. */
  function Gated(cred: Credentials, call: Call): Outcome
  {
    if Authorised(cred) then Sent([], call) else Denied(GateDiagnostic)
  }

  /** The callback of every order command hands its handler arguments that fit it. */
  lemma WiredFits(v: Venue, c: Command, words: seq<string>, opts: map<string, JsValue>)
    requires HandlerOf(v, c).group == Trade && |words| >= RequiredCount(Arguments(c))
    ensures Fits(c, Wire(WiringOf(c), words, opts))
  {
  }

  /** Every order handler is behind the gate, and sends to its own venue only. */
  lemma PerformsGate(cred: Credentials, v: Venue, c: Command, args: seq<JsValue>, o: Outcome)
    requires Fits(c, args) && Performs(cred, v, c, args, o)
    ensures !Authorised(cred) ==> o == Denied(GateDiagnostic)
    ensures o.Sent? ==> Authorised(cred) && o.call.venue == v && o.call.endpoint == Endpoint(v, c)
  {
  }

  /**
   * The order handler `c` of venue `v`, called with the arguments its
   * `.action` callback passes.
   */
  method RunOrder(cred: Credentials, v: Venue, c: Command, args: seq<JsValue>) returns (o: Outcome)
    requires Fits(c, args)
    ensures Performs(cred, v, c, args, o)
    ensures o.Sent? ==> o.call.venue == v && Authorised(cred)
    ensures !Authorised(cred) ==> o == Denied(GateDiagnostic)
  {
    if c == Account {
      o := if v == Spot then SpotTrade.Account(cred) else if v == UsdM then UmTrade.Account(cred) else CmTrade.Account(cred);
    } else if c == Buy || c == Sell {
      if v == Spot {
        o := SpotTrade.NewOrder(cred, args[0].props);
      } else if v == UsdM {
        o := UmTrade.NewOrder(cred, args[0].props);
      } else {
        o := CmTrade.NewOrder(cred, args[0].props);
      }
    } else if c == GetOrder {
      if v == Spot {
        o := SpotTrade.GetOrder(cred, args[0], args[1].props);
      } else if v == UsdM {
        o := UmTrade.GetOrder(cred, args[0], args[1].props);
      } else {
        o := CmTrade.GetOrder(cred, args[0], args[1].props);
      }
    } else if c == CancelOrder {
      if v == Spot {
        o := SpotTrade.CancelOrder(cred, args[0], args[1].props);
      } else if v == UsdM {
        o := UmTrade.CancelOrder(cred, args[0], args[1].props);
      } else {
        o := CmTrade.CancelOrder(cred, args[0], args[1].props);
      }
    } else {
      o := if v == Spot then SpotTrade.CancelAll(cred, args[0])
        else if v == UsdM then UmTrade.CancelAll(cred, args[0])
        else CmTrade.CancelAll(cred, args[0]);
    }
  }

  /**
   * One command line, end to end. Market data and stream handlers are
   * outside the model and their invocation is the result; the order
   * handlers run with the credentials of the venue the command's prefix
   * names.
   */
  method Run(env: Env, word: string, words: seq<string>, opts: map<string, JsValue>) returns (e: Effect)
    ensures e.UsageError? <==> !Dispatch(Registry(), word, words, opts).Invoke?
    ensures e.UsageError? ==> e.d == Dispatch(Registry(), word, words, opts)
    ensures e.Delegated? ==> e.inv == Dispatch(Registry(), word, words, opts).inv && e.inv.handler.group != Trade
    ensures e.Handled? ==> Dispatch(Registry(), word, words, opts).Invoke? && Dispatch(Registry(), word, words, opts).inv.handler.group == Trade
    ensures e.Handled? && e.outcome.Sent? ==>
      && e.outcome.call.venue == VenueOfWord(word)
      && Authorised(CredentialsFor(env, VenueOfWord(word)))
    ensures e.Handled? && !Authorised(CredentialsFor(env, VenueOfWord(word))) ==> e.outcome == Denied(GateDiagnostic)
    ensures e.Handled? ==>
      && Fits(Lookup(Registry(), word).value.command, Dispatch(Registry(), word, words, opts).inv.args)
      && Performs(CredentialsFor(env, VenueOfWord(word)), VenueOfWord(word), Lookup(Registry(), word).value.command,
                  Dispatch(Registry(), word, words, opts).inv.args, e.outcome)
  {
    var d := Dispatch(Registry(), word, words, opts);
    if !d.Invoke? {
      return UsageError(d);
    }
    if d.inv.handler.group != Trade {
      return Delegated(d.inv);
    }
    var s := Lookup(Registry(), word).value;
    var k :| 0 <= k < |Registry()| && Registry()[k] == s;
    RegistryEntryShape(k);
    PrefixRoutes(word);
    var v, c := s.handler.venue, s.command;
    SpecFields(v, c);
    WiredFits(v, c, words, opts);
    var o := RunOrder(CredentialsFor(env, v), v, c, d.inv.args);
    e := Handled(o);
  }

  /** `side` is not one of the options of buy and sell, so the side their callback writes stays. */
  lemma SideIsNoOption(opts: map<string, JsValue>)
    requires opts.Keys <= {"symbol", "type", "qty", "price", "tif", "quoteOrderQty"}
    ensures "side" !in opts
  {
    assert "side"[0] == 's' && "type"[0] == 't';
    assert |"side"| == 4 && |"symbol"| == 6 && |"qty"| == 3 && |"price"| == 5 && |"tif"| == 3 && |"quoteOrderQty"| == 13;
  }

  /**
   * `buy` or `sell` under a venue's prefix, end to end: the command line
   * reaches that venue's `newOrder` with the credentials the venue reads,
   * and what is sent is the validated order carrying the command's side.
   */
  method PlaceOrder(env: Env, v: Venue, c: Command, opts: map<string, JsValue>) returns (e: Effect)
    requires c == Buy || c == Sell
    requires opts.Keys <= {"symbol", "type", "qty", "price", "tif", "quoteOrderQty"}
    ensures e.Handled?
    ensures e.outcome.Sent? <==> (Authorised(CredentialsFor(env, v)) && Truthy(Get(opts, "symbol"))
                                  && Truthy(Get(opts, "type")) && Get(opts, "type").Str?)
    ensures e.outcome.Sent? ==> e.outcome.call == Call(v, "newOrder", OrderArgs(v, Order(Get(opts, "symbol"), SideOf(c),
                                                                                         Upper(Get(opts, "type").s), Normalized(OrderBag(opts)))))
  {
    var word := Prefix(v) + BaseName(c);
    var args := [Obj(map["side" := Str(SideOf(c))] + opts)];
    assert && Lookup(Registry(), word).value.command == c && VenueOfWord(word) == v
           && Dispatch(Registry(), word, [], opts) == Invoke(Invocation(Handler(v, Trade, "newOrder"), args)) by {
      OrderDispatch(v, c, opts);
      SpecFields(v, c);
      FoundByEveryWord(v, c, word);
      VenueOfPrefixed(v, c, BaseName(c));
    }
    SideIsNoOption(opts);
    e := Run(env, word, [], opts);
    OrderSent(CredentialsFor(env, v), v, c, opts, e.outcome);
  }
}
