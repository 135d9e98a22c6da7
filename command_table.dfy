/**
 * The command table the executable registers with its argument parser:
 * for every command its name, aliases, positional arguments, options,
 * the handler it is bound to and how the handler's arguments are wired.
 *
 * The table has three blocks, registered in this order: the spot commands
 * (no prefix), the USD-margined futures commands (`um_`) and the
 * coin-margined futures commands (`cm_`). Within a block a command has the
 * same aliases, arguments, options and wiring whatever the venue; the
 * futures blocks have no `avg_price` and no `listen`. So each entry is
 * `Spec(venue, command)`, and the table is the list of (venue, command)
 * pairs in registration order.
 */
module CommandTable {
  import opened JsValues
  import opened Adapter

  /** The commands of one block, without their venue prefix. */
  datatype Command =
    | Account | AggTrades | AvgPrice | BookTicker | Buy | CancelAll | CancelOrder | GetOrder
    | HistTrades | Info | Klines | Listen | OrderBook | Price | Sell | Ticker | Time | Trades

  /** The module a handler lives in: market data, the order adapter, or the stream listener. */
  datatype HandlerModule = Market | Trade | Websocket

  datatype Handler = Handler(venue: Venue, group: HandlerModule, fn: string)

  /** A positional argument: `<name>` is required, `[name...]` collects zero or more words. */
  datatype Argument = Required(name: string) | Variadic(name: string)

  /** An option by its long name; `optionalValue` for `[value]` options, which yield `true` when given bare. */
  datatype OptionSpec = OptionSpec(long: string, optionalValue: bool)

  /** How the `.action` callback turns the parsed command line into handler arguments. */
  datatype Wiring =
    | NoArgs                      // () => handler()
    | OptionBag                   // (args) => handler(args)
    | SymbolOnly                  // (symbol) => handler(symbol)
    | SymbolAndOptions            // (symbol, args) => handler(symbol, args)
    | SymbolAndLimit              // (symbol, args) => handler(symbol, args.limit)
    | SymbolIntervalAndOptions    // (symbol, interval, args) => handler(symbol, interval, args)
    | SideAndOptions(side: string) // (args) => handler({ side, ...args })
    | StreamList                  // (streams) => handler(streams)

  datatype CommandSpec = CommandSpec(
    command: Command,
    name: string,
    aliases: seq<string>,
    arguments: seq<Argument>,
    options: seq<OptionSpec>,
    handler: Handler,
    wiring: Wiring)

  function Prefix(v: Venue): string
  {
    match v
    case Spot => ""
    case UsdM => "um_"
    case CoinM => "cm_"
  }

  function BaseName(c: Command): string
  {
    match c
    case Account => "account"
    case AggTrades => "agg_trades"
    case AvgPrice => "avg_price"
    case BookTicker => "book_ticker"
    case Buy => "buy"
    case CancelAll => "cancel_all"
    case CancelOrder => "cancel_order"
    case GetOrder => "get_order"
    case HistTrades => "hist_trades"
    case Info => "info"
    case Klines => "klines"
    case Listen => "listen"
    case OrderBook => "order_book"
    case Price => "price"
    case Sell => "sell"
    case Ticker => "ticker"
    case Time => "time"
    case Trades => "trades"
  }

  function BaseAliases(c: Command): seq<string>
  {
    match c
    case Account => ["a"]
    case AggTrades => ["at"]
    case AvgPrice => ["ap"]
    case BookTicker => ["bt"]
    case CancelAll => ["ca"]
    case CancelOrder => ["cancel"]
    case GetOrder => ["get"]
    case HistTrades => ["ht"]
    case Info => ["i"]
    case Klines => ["k"]
    case Listen => ["l"]
    case OrderBook => ["ob", "book"]
    case Time => ["t"]
    case Buy | Price | Sell | Ticker | Trades => []
  }

  function BaseWords(c: Command): seq<string>
  {
    [BaseName(c)] + BaseAliases(c)
  }

  function Arguments(c: Command): seq<Argument>
  {
    match c
    case AggTrades | AvgPrice | CancelAll | CancelOrder | GetOrder | HistTrades | OrderBook | Trades =>
      [Required("symbol")]
    case Klines => [Required("symbol"), Required("interval")]
    case Listen => [Variadic("streams")]
    case Account | BookTicker | Buy | Info | Price | Sell | Ticker | Time => []
  }

  function Options(c: Command): seq<OptionSpec>
  {
    match c
    case AggTrades =>
      [OptionSpec("limit", false), OptionSpec("startTime", false), OptionSpec("endTime", false), OptionSpec("fromId", false)]
    case BookTicker | Price | Ticker => [OptionSpec("symbol", false)]
    case Buy | Sell =>
      [OptionSpec("symbol", true), OptionSpec("type", true), OptionSpec("qty", true),
       OptionSpec("price", true), OptionSpec("tif", true), OptionSpec("quoteOrderQty", true)]
    case CancelOrder | GetOrder => [OptionSpec("orderId", false), OptionSpec("origClientOrderId", false)]
    case HistTrades => [OptionSpec("limit", false), OptionSpec("fromId", false)]
    case Klines => [OptionSpec("limit", false), OptionSpec("startTime", false), OptionSpec("endTime", false)]
    case OrderBook | Trades => [OptionSpec("limit", false)]
    case Account | AvgPrice | CancelAll | Info | Listen | Time => []
  }

  function HandlerOf(v: Venue, c: Command): Handler
  {
    match c
    case Account => Handler(v, Trade, "account")
    case AggTrades => Handler(v, Market, "aggTrades")
    case AvgPrice => Handler(v, Market, "avgPrice")
    case BookTicker => Handler(v, Market, "bookTicker")
    case Buy => Handler(v, Trade, "newOrder")
    case CancelAll => Handler(v, Trade, "cancelAll")
    case CancelOrder => Handler(v, Trade, "cancelOrder")
    case GetOrder => Handler(v, Trade, "getOrder")
    case HistTrades => Handler(v, Market, "histTrades")
    case Info => Handler(v, Market, "exchangeInfo")
    case Klines => Handler(v, Market, "klines")
    case Listen => Handler(v, Websocket, "listen")
    case OrderBook => Handler(v, Market, "depth")
    case Price => Handler(v, Market, "tickerPrice")
    case Sell => Handler(v, Trade, "newOrder")
    case Ticker => Handler(v, Market, "ticker")
    case Time => Handler(v, Market, "time")
    case Trades => Handler(v, Market, "trades")
  }

  function WiringOf(c: Command): Wiring
  {
    match c
    case Account | Info | Time => NoArgs
    case AggTrades | CancelOrder | GetOrder | HistTrades => SymbolAndOptions
    case AvgPrice | CancelAll => SymbolOnly
    case BookTicker | Price | Ticker => OptionBag
    case Buy => SideAndOptions("BUY")
    case Sell => SideAndOptions("SELL")
    case Klines => SymbolIntervalAndOptions
    case Listen => StreamList
    case OrderBook | Trades => SymbolAndLimit
  }

  function Prefixed(v: Venue, words: seq<string>): seq<string>
  {
    seq(|words|, i requires 0 <= i < |words| => Prefix(v) + words[i])
  }

  /** The registered command `c` of venue `v`. */
  function Spec(v: Venue, c: Command): CommandSpec
  {
    CommandSpec(c, Prefix(v) + BaseName(c), Prefixed(v, BaseAliases(c)), Arguments(c), Options(c),
                HandlerOf(v, c), WiringOf(c))
  }

  /** The words a command answers to: its name, then its aliases. */
  function Words(s: CommandSpec): seq<string>
  {
    [s.name] + s.aliases
  }

  /** The spot block in registration order. */
  const SpotCommands: seq<Command> :=
    [Account, AggTrades, AvgPrice, BookTicker, Buy, CancelAll, CancelOrder, GetOrder, HistTrades,
     Info, Klines, Listen, OrderBook, Price, Sell, Ticker, Time, Trades]

  /** Each futures block in registration order. */
  const FuturesCommands: seq<Command> :=
    [Time, Info, OrderBook, Trades, HistTrades, AggTrades, Klines, Ticker, Price, BookTicker,
     Account, Buy, Sell, GetOrder, CancelOrder, CancelAll]

  function CommandsOf(v: Venue): seq<Command>
  {
    if v == Spot then SpotCommands else FuturesCommands
  }

  function Tagged(v: Venue): seq<(Venue, Command)>
  {
    seq(|CommandsOf(v)|, i requires 0 <= i < |CommandsOf(v)| => (v, CommandsOf(v)[i]))
  }

  /** Every registration, in order. */
  const Entries: seq<(Venue, Command)> := Tagged(Spot) + Tagged(UsdM) + Tagged(CoinM)

  /** The command table. */
  function Registry(): seq<CommandSpec>
  {
    seq(|Entries|, k requires 0 <= k < |Entries| => Spec(Entries[k].0, Entries[k].1))
  }

  // ---- uniqueness of names and aliases ----

  predicate Distinct<T(==)>(s: seq<T>)
  {
    forall a, b :: 0 <= a < b < |s| ==> s[a] != s[b]
  }

  /** No word is the name or alias of two entries, and no entry lists a word twice. */
  ghost predicate UniqueWords(reg: seq<CommandSpec>)
  {
    && (forall i, j, w :: 0 <= i < |reg| && 0 <= j < |reg| && w in Words(reg[i]) && w in Words(reg[j]) ==> i == j)
    && (forall i :: 0 <= i < |reg| ==> Distinct(Words(reg[i])))
  }

  predicate HasPrefix(w: string, p: string)
  {
    |p| <= |w| && w[..|p|] == p
  }

  /** The venue a command word belongs to, read off its prefix. */
  function VenueOfWord(w: string): Venue
  {
    if HasPrefix(w, "um_") then UsdM else if HasPrefix(w, "cm_") then CoinM else Spot
  }

  /**
   * The command a base word belongs to, read off the word's length and its
   * first and last letters, which already tell all the base words apart.
   */
  function CommandBySignature(n: int, first: char, last: char): Command
  {
    match (n, first, last)
    case (7, 'a', 't') | (1, 'a', 'a') => Account
    case (10, 'a', 's') | (2, 'a', 't') => AggTrades
    case (9, 'a', 'e') | (2, 'a', 'p') => AvgPrice
    case (11, 'b', 'r') | (2, 'b', 't') => BookTicker
    case (3, 'b', 'y') => Buy
    case (10, 'c', 'l') | (2, 'c', 'a') => CancelAll
    case (12, 'c', 'r') | (6, 'c', 'l') => CancelOrder
    case (9, 'g', 'r') | (3, 'g', 't') => GetOrder
    case (11, 'h', 's') | (2, 'h', 't') => HistTrades
    case (4, 'i', 'o') | (1, 'i', 'i') => Info
    case (6, 'k', 's') | (1, 'k', 'k') => Klines
    case (6, 'l', 'n') | (1, 'l', 'l') => Listen
    case (10, 'o', 'k') | (2, 'o', 'b') | (4, 'b', 'k') => OrderBook
    case (5, 'p', 'e') => Price
    case (4, 's', 'l') => Sell
    case (6, 't', 'r') => Ticker
    case (4, 't', 'e') | (1, 't', 't') => Time
    case _ => Trades
  }

  lemma BaseWordSignature(c: Command, w: string)
    requires w in BaseWords(c)
    ensures |w| >= 1 && CommandBySignature(|w|, w[0], w[|w| - 1]) == c
  {
  }

  lemma BaseWordsDisjoint(c1: Command, c2: Command, w: string)
    requires w in BaseWords(c1) && w in BaseWords(c2)
    ensures c1 == c2
  {
    BaseWordSignature(c1, w);
    BaseWordSignature(c2, w);
  }

  lemma BaseWordsDistinct(c: Command)
    ensures Distinct(BaseWords(c))
  {
  }

  /** No base word starts with a venue prefix. */
  lemma BaseWordShape(c: Command, b: string)
    requires b in BaseWords(c)
    ensures |b| >= 1 && b[0] != 'u' && (b[0] == 'c' ==> |b| >= 2 && b[1] != 'm')
  {
  }

  lemma NotPrefixAt(w: string, p: string, i: nat)
    requires i < |p| && (i < |w| ==> w[i] != p[i])
    ensures !HasPrefix(w, p)
  {
    if |p| <= |w| {
      assert w[..|p|][i] != p[i];
    }
  }

  lemma {:induction false} VenueOfPrefixed(v: Venue, c: Command, b: string)
    requires b in BaseWords(c)
    ensures VenueOfWord(Prefix(v) + b) == v
  {
    BaseWordShape(c, b);
    var w := Prefix(v) + b;
    match v
    case Spot =>
      assert w == b;
      NotPrefixAt(w, "um_", 0);
      if w[0] == 'c' {
        NotPrefixAt(w, "cm_", 1);
      } else {
        NotPrefixAt(w, "cm_", 0);
      }
    case UsdM =>
      assert w[..3] == "um_";
    case CoinM =>
      assert w[..3] == "cm_";
      NotPrefixAt(w, "um_", 0);
  }

  lemma WordsOfSpec(v: Venue, c: Command)
    ensures Words(Spec(v, c)) == Prefixed(v, BaseWords(c))
  {
  }

  lemma InPrefixed(v: Venue, words: seq<string>, w: string)
    requires w in Prefixed(v, words)
    ensures exists b :: b in words && w == Prefix(v) + b
  {
    var i :| 0 <= i < |Prefixed(v, words)| && Prefixed(v, words)[i] == w;
    assert words[i] in words;
  }

  /** Two registered commands share a word only if they are the same venue's same command. */
  lemma {:induction false} SpecWordsDisjoint(v1: Venue, c1: Command, v2: Venue, c2: Command, w: string)
    requires w in Words(Spec(v1, c1)) && w in Words(Spec(v2, c2))
    ensures v1 == v2 && c1 == c2
  {
    WordsOfSpec(v1, c1);
    WordsOfSpec(v2, c2);
    InPrefixed(v1, BaseWords(c1), w);
    InPrefixed(v2, BaseWords(c2), w);
    var b1 :| b1 in BaseWords(c1) && w == Prefix(v1) + b1;
    var b2 :| b2 in BaseWords(c2) && w == Prefix(v2) + b2;
    VenueOfPrefixed(v1, c1, b1);
    VenueOfPrefixed(v2, c2, b2);
    assert b1 == w[|Prefix(v1)|..] == b2;
    BaseWordsDisjoint(c1, c2, b1);
  }

  lemma {:induction false} SpecWordsDistinct(v: Venue, c: Command)
    ensures Distinct(Words(Spec(v, c)))
  {
    WordsOfSpec(v, c);
    BaseWordsDistinct(c);
    var ws := Prefixed(v, BaseWords(c));
    forall a, b | 0 <= a < b < |ws|
      ensures ws[a] != ws[b]
    {
      assert BaseWords(c)[a] == ws[a][|Prefix(v)|..];
      assert BaseWords(c)[b] == ws[b][|Prefix(v)|..];
    }
  }

  /** The position of a command in the spot block. */
  function SpotPosition(c: Command): nat
  {
    match c
    case Account => 0 case AggTrades => 1 case AvgPrice => 2 case BookTicker => 3 case Buy => 4
    case CancelAll => 5 case CancelOrder => 6 case GetOrder => 7 case HistTrades => 8 case Info => 9
    case Klines => 10 case Listen => 11 case OrderBook => 12 case Price => 13 case Sell => 14
    case Ticker => 15 case Time => 16 case Trades => 17
  }

  /** The position of a command in a futures block (the two spot-only commands have none). */
  function FuturesPosition(c: Command): int
  {
    match c
    case Time => 0 case Info => 1 case OrderBook => 2 case Trades => 3 case HistTrades => 4
    case AggTrades => 5 case Klines => 6 case Ticker => 7 case Price => 8 case BookTicker => 9
    case Account => 10 case Buy => 11 case Sell => 12 case GetOrder => 13 case CancelOrder => 14
    case CancelAll => 15 case AvgPrice | Listen => -1
  }

  lemma {:induction false} SpotCommandsDistinct()
    ensures Distinct(SpotCommands)
  {
    forall i | 0 <= i < |SpotCommands|
      ensures SpotPosition(SpotCommands[i]) == i
    {
    }
  }

  lemma {:induction false} FuturesCommandsDistinct()
    ensures Distinct(FuturesCommands)
  {
    forall i | 0 <= i < |FuturesCommands|
      ensures FuturesPosition(FuturesCommands[i]) == i
    {
    }
  }

  /** Where entry `k` sits: the spot block, then the USD-margined block, then the coin-margined block. */
  lemma EntryAt(k: int)
    requires 0 <= k < |Entries|
    ensures |Entries| == |SpotCommands| + 2 * |FuturesCommands|
    ensures k < |SpotCommands| ==> Entries[k] == (Spot, SpotCommands[k])
    ensures |SpotCommands| <= k < |SpotCommands| + |FuturesCommands|
      ==> Entries[k] == (UsdM, FuturesCommands[k - |SpotCommands|])
    ensures |SpotCommands| + |FuturesCommands| <= k
      ==> Entries[k] == (CoinM, FuturesCommands[k - |SpotCommands| - |FuturesCommands|])
  {
  }

  /** No (venue, command) pair is registered twice. */
  lemma {:induction false} EntriesDistinct()
    ensures Distinct(Entries)
  {
    SpotCommandsDistinct();
    FuturesCommandsDistinct();
    forall a, b | 0 <= a < b < |Entries|
      ensures Entries[a] != Entries[b]
    {
      EntryAt(a);
      EntryAt(b);
    }
  }

  /** No two registered commands share a name or alias, and no command lists a word twice. */
  lemma {:induction false} RegistryWordsUnique()
    ensures UniqueWords(Registry())
  {
    EntriesDistinct();
    forall i, j, w | 0 <= i < |Registry()| && 0 <= j < |Registry()| && w in Words(Registry()[i]) && w in Words(Registry()[j])
      ensures i == j
    {
      SpecWordsDisjoint(Entries[i].0, Entries[i].1, Entries[j].0, Entries[j].1, w);
    }
    forall i | 0 <= i < |Registry()|
      ensures Distinct(Words(Registry()[i]))
    {
      SpecWordsDistinct(Entries[i].0, Entries[i].1);
    }
  }

  /** Every command of a venue's block is in the table. */
  lemma {:induction false} EntryListed(v: Venue, c: Command)
    requires c in CommandsOf(v)
    ensures exists k :: 0 <= k < |Registry()| && Registry()[k] == Spec(v, c)
  {
    var i :| 0 <= i < |CommandsOf(v)| && CommandsOf(v)[i] == c;
    var k := match v
      case Spot => i
      case UsdM => |SpotCommands| + i
      case CoinM => |SpotCommands| + |FuturesCommands| + i;
    EntryAt(k);
    assert Registry()[k] == Spec(v, c);
  }

  lemma SpecFields(v: Venue, c: Command)
    ensures Spec(v, c).command == c && Spec(v, c).handler.venue == v
  {
  }

  /** Every entry of the table is some venue's command, registered under that venue's prefix. */
  lemma {:induction false} RegistryEntryShape(k: int)
    requires 0 <= k < |Registry()|
    ensures Registry()[k] == Spec(Registry()[k].handler.venue, Registry()[k].command)
    ensures Registry()[k].command in CommandsOf(Registry()[k].handler.venue)
  {
    var v, c := Entries[k].0, Entries[k].1;
    assert Registry()[k] == Spec(v, c);
    SpecFields(v, c);
    EntryAt(k);
    var i := if k < |SpotCommands| then k
      else if k < |SpotCommands| + |FuturesCommands| then k - |SpotCommands|
      else k - |SpotCommands| - |FuturesCommands|;
    assert CommandsOf(v)[i] == c;
  }
}
