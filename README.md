# binance-cli: the local logic in front of the SDK calls

`binance-cli` is a command-line front end to the Binance spot,
USD-margined futures and coin-margined futures APIs. Almost every command
ends in one SDK call. What the tool decides for itself before that call
is modelled here:

- the command table, with its names, aliases, positional arguments,
  options and the argument wiring of each `.action` callback;
- the credential gate;
- the checks and the request shaping of the order handlers;
- the normalisation of optional parameters;
- the two output helpers.

Each handler is a value-level function or a small method. It returns an
`Outcome`:

- `Denied`: refused by the credential gate;
- `Rejected`: refused by a usage check;
- `Crashed`: stopped by a TypeError;
- `Sent`: the request record it would hand to the SDK client.

Each outcome also carries the lines printed before the handler returns.

JavaScript values are the `JsValues.JsValue` datatype, with JavaScript
truthiness, `typeof x === 'object'`, `instanceof Object`, `\s` white space
and ASCII upper-casing. Output is a sequence of `PrettyPrint.Line`s, each
a list of items that are logged verbatim (`Text`) or serialised (`Json`).
`JSON.stringify` is left abstract.

Modules, in dependency order:

- `JsValues`: the value domain.
- `PrettyPrint`: `print` and `printError` (`helpers/prettyPrint.js`).
- `Util`:
  - `isEmptyValue` and `removeEmptyValue`, the latter as a method that
    deletes keys from a `JsObject` in place;
  - `checkKeyAndSecret` and `checkAPIKey` (`helpers/util.js`).
- `Adapter`: what the three `trade.js` files share:
  - the credential type;
  - the `newOrder` checks up to the client call, as the function
    `OrderCheck` and the step-by-step method `PrepareOrder`;
  - the sequential selection of the order reference (`SelectOrderRef`).
- `SpotTrade`, `UmTrade`, `CmTrade`: the five handlers of each venue and
  the request each one builds. Spot and USD-margined futures pass
  positional arguments. Coin-margined futures merge everything into one
  request object.
- `CommandTable`: the registered commands of `bin/binance-cli.js`. The
  file registers three blocks in order: spot (18 commands), `um_` (16)
  and `cm_` (16). The futures blocks register the same commands as the
  spot block, under a prefix and without `avg_price` and `listen`, but in
  a different order: `bin/binance-cli.js:262-480` starts with `um_time`
  and `um_info`. `FuturesCommands` lists them in that order. The table is therefore
  derived from one description per command (`Spec(venue, command)`)
  rather than written out 50 times. `RegistryWordsUnique` proves that no
  two registrations share a name or an alias.
- `Cli`: lookup, dispatch and the run of one command line.
  - Lookup takes the first registered command answering to a word.
  - Dispatch reports unknown options before missing arguments, then
    wires the handler's arguments.
  - Running a command hands an order handler the arguments its callback
    wires and the credentials of the venue its prefix names. What the
    handler then does is the specification `Performs`: the outcome of the
    shared checks or the venue's request shape.
  - Scenario lemmas cover `order_book`, `trades`, `time`/`t`, `klines`,
    `buy` and `sell`.

## Model

| member | source | states |
|---|---|---|
| Util.IsEmptyValue | helpers/util.js:3-12 | `undefined`, `null` and `NaN` are empty; `false` and numbers are not; a string is empty iff all its characters are white space; an object iff it has no keys; an array iff it has no elements; functions are empty |
| Util.EmptyValueCorners | helpers/util.js:8-11 | `''` and blank strings are empty; `' x '`, `false` and `0` are not; `{}` and `[]` are empty; `[undefined]` is not |
| Util.NormalizedEntries | helpers/util.js:16 | the normalised bag keeps exactly the keys whose values are not empty, with their values unchanged, and adds no key |
| Util.NormalizedHasNoEmpty | helpers/util.js:16 | after normalisation no key maps to an empty value |
| Util.NormalizedIdempotent | helpers/util.js:14-18 | normalising twice equals normalising once |
| Util.RemoveEmptyValue | helpers/util.js:14-18 | a primitive yields a fresh `{}`; an object is returned itself, with its keys reduced in place to the normalised bag of its old keys |
| Util.RemoveEmptyValueTwice | helpers/util.js:14-18 | two in-place passes over one object leave the result of one pass |
| Util.CheckKeyAndSecret | helpers/util.js:20-24 | passes iff key and secret are both truthy; prints nothing when it passes and exactly one diagnostic line when it fails |
| Util.CheckApiKey | helpers/util.js:26-30 | passes iff the key is truthy; prints exactly its one diagnostic iff it fails |
| Util.DiagnosticNamesSpotVariables | helpers/util.js:22 | the gate's message names BINANCE_API_KEY and BINANCE_API_SECRET and never the BINANCE_FUTURES_ variables |
| PrettyPrint.Print | helpers/prettyPrint.js:10-18 | an object message (arrays and `null` included) gives one serialised line; any other message is logged verbatim, followed by a serialised second line iff `obj` is truthy |
| PrettyPrint.PrintIgnoresObjForObjects | helpers/prettyPrint.js:11 | for an object message the second argument makes no difference |
| PrettyPrint.PrintError | helpers/prettyPrint.js:21-27 | always one line of two items; the first is `response.data` when the error has a truthy `response`, else the error; the second is `obj`, or `''` when `obj` is falsy |
| PrettyPrint.PrintErrorShowsPayload | helpers/prettyPrint.js:22-23 | an error carrying a response is reported by its payload, whatever the payload is (`''`, `0` and `undefined` included), not by the wrapper |
| PrettyPrint.PrintErrorOfMessage | helpers/prettyPrint.js:24-25 | a plain message is logged verbatim with an empty trailer |
| JsValues.UpperSpec | commands/spot/trade.js:98 | upper-casing keeps the length, turns each lower-case letter into the upper-case letter at the same place in the alphabet, leaves every other character unchanged, and so leaves no lower-case letter |
| JsValues.UpperIdempotent | commands/spot/trade.js:98 | upper-casing twice equals upper-casing once |
| Adapter.ReplyLines | commands/spot/trade.js:98-99 | a settled request adds exactly one line: the payload as `print` shows it, or the error report of `printError` |
| Adapter.Transcript | commands/spot/trade.js:98-99 | a handler's output is its own lines, followed, iff it sent a request, by exactly the reply line of that request |
| Adapter.OrderBagFields | commands/spot/trade.js:91-97 | the normalised bag maps qty to quantity, price to price, tif to timeInForce and quoteOrderQty to quoteOrderQty; it holds a field iff its option is not empty, holds no empty value, and never holds symbol, side or type |
| Adapter.OrderCheck | commands/spot/trade.js:73-98 | no credentials gives the gate's diagnostic and nothing else; otherwise the debug line comes first, then symbol, side and type are checked in that order with that field's message on the first falsy one; once all three are truthy, a side or type that is not a string throws, after the debug line alone; a ready order has the symbol unchanged, side and type upper-cased and the normalised bag |
| Adapter.GateSilencesValidation | commands/spot/trade.js:74 | without credentials only the gate's diagnostic is printed, whatever the options |
| Adapter.PrepareOrder | commands/spot/trade.js:73-98 | the step-by-step body (fresh bag, in-place normalisation, upper-casing) agrees with `OrderCheck` |
| Adapter.OrderRefChoice | commands/spot/trade.js:13-24 | the order reference holds at most one id: the client id when it is truthy, else the order id when it is truthy, else nothing |
| Adapter.OrderRefTruthy | commands/spot/trade.js:26-29 | the reference is always a truthy object, so the "Either orderId or origClientOrderId" guard never fires; with no id it is `{}` |
| Adapter.SelectOrderRef | commands/spot/trade.js:13-24 | the sequential overwrite of `param` yields `OrderRef` |
| SpotTrade.Account | commands/spot/trade.js:66-71 | sends `account()` iff both credentials are truthy, otherwise prints only the gate's diagnostic |
| SpotTrade.CancelAll | commands/spot/trade.js:59-64 | sends `cancelOpenOrders(symbol)` with the symbol alone iff authorised |
| SpotTrade.NewOrder | commands/spot/trade.js:73-101 | a stopped check is the outcome; a ready order is sent as `newOrder(symbol, SIDE, TYPE, bag)` after the debug line |
| SpotTrade.GetOrder | commands/spot/trade.js:11-33 | without credentials, the gate's diagnostic; otherwise `getOrder(symbol, ref)` with the selected reference, and never the "Either…" error |
| SpotTrade.CancelOrder | commands/spot/trade.js:35-57 | as `GetOrder`, with `cancelOrder(symbol, ref)` |
| UmTrade.Account | commands/futures/um/trade.js:11-16 | sends `getAccountInformationV2()` iff the futures credentials are truthy |
| UmTrade.NewOrder | commands/futures/um/trade.js:18-46 | the shared checks, then `newOrder(symbol, SIDE, TYPE, bag)` to the USD-margined client |
| UmTrade.GetOrder | commands/futures/um/trade.js:48-70 | gated `queryOrder(symbol, ref)` with the client id preferred; the "Either…" branch is unreachable |
| UmTrade.CancelOrder | commands/futures/um/trade.js:72-94 | gated `cancelOrder(symbol, ref)` with the client id preferred |
| UmTrade.CancelAll | commands/futures/um/trade.js:96-101 | gated `cancelAllOpenOrders(symbol)` with the symbol alone |
| UmTrade.UmGateNamesSpotVariables | commands/futures/um/trade.js:5-101 | every refused USD-margined handler prints only the gate's line, whose message names BINANCE_API_KEY and BINANCE_API_SECRET and neither of the BINANCE_FUTURES_ variables the adapter reads |
| CmTrade.Account | commands/futures/cm/trade.js:16-21 | sends `accountInformation()` iff the configured key and secret are truthy |
| CmTrade.OrderRequestFields | commands/futures/cm/trade.js:41-48 | the request object holds exactly symbol, upper-cased side and type, and the non-empty bag fields; no bag field overwrites the first three |
| CmTrade.NewOrder | commands/futures/cm/trade.js:23-52 | the shared checks, then one request object `{ symbol, side, type, ...parameters }` |
| CmTrade.RefRequestFields | commands/futures/cm/trade.js:73 | `{ symbol, ...param }` holds the symbol and at most one id field, the client id when both are given |
| CmTrade.GetOrder | commands/futures/cm/trade.js:54-76 | gated `queryOrder({ symbol, ...ref })` |
| CmTrade.CancelOrder | commands/futures/cm/trade.js:78-100 | gated `cancelOrder({ symbol, ...ref })` |
| CmTrade.CancelAll | commands/futures/cm/trade.js:102-107 | gated `cancelAllOpenOrders({ symbol })`, an object with the symbol and nothing else |
| CommandTable.RegistryWordsUnique | bin/binance-cli.js:24-701 | no two registrations share a name or an alias, and no registration lists one word twice |
| CommandTable.EntryListed | bin/binance-cli.js:24-701 | every command of a venue's block is registered |
| CommandTable.RegistryEntryShape | bin/binance-cli.js:24-701 | every registration is one venue's command under that venue's prefix |
| CommandTable.VenueOfPrefixed | bin/binance-cli.js:269-701 | a word of a venue's block carries exactly that venue's prefix (`um_`, `cm_` or none) |
| Cli.Lookup | bin/binance-cli.js:707 | the command found answers to the word and is registered; no command is found only when none answers to it |
| Cli.LookupUnique | bin/binance-cli.js:707 | in a table with unique words, a word finds exactly the entry listing it |
| Cli.FoundByEveryWord | bin/binance-cli.js:24-701 | every name and alias of a registered command finds that command |
| Cli.PrefixRoutes | bin/binance-cli.js:5-13 | un-prefixed words reach the spot handlers, `um_` words the USD-margined ones, `cm_` words the coin-margined ones |
| Cli.Dispatch | bin/binance-cli.js:707 | an unknown word, an unknown option and a missing required argument are usage errors, in that order, and the missing one is named; otherwise the handler of the command found is invoked with the arguments its callback wires |
| Cli.OrderBookWords | bin/binance-cli.js:191-197 | `order_book`, `ob` and `book` invoke the same depth handler with the symbol and `args.limit` |
| Cli.LimitForwarded | bin/binance-cli.js:256-260 | `trades` forwards only `args.limit`: the given limit, or `undefined` when `-l` is omitted, so that the handler's own default applies |
| Cli.TimeOwnsT | bin/binance-cli.js:245-260 | `t` is `time`, and `trades` has no alias, so `t <symbol>` asks for the server time |
| Cli.KlinesArgumentOrder | bin/binance-cli.js:160-168 | klines passes symbol, then interval, then the option bag; a missing interval is reported by name |
| Cli.OrderDispatch | bin/binance-cli.js:77-86 | buy and sell, under every prefix, invoke their venue's `newOrder` with side BUY or SELL written under the option bag |
| Cli.SideSurvives | bin/binance-cli.js:86 | with the side set by the command and no side option, the side check cannot fail, and a ready order carries that side |
| Cli.BareTypeFlagCrashes | bin/binance-cli.js:81 | a bare `-t` gives `type = true`, which passes the checks and throws at `toUpperCase` |
| Cli.PerformsGate | commands/spot/trade.js:11-101 | under `Performs`, every order handler without credentials prints only the gate's diagnostic, and sends only to its own venue's client method |
| Cli.WiredFits | bin/binance-cli.js:77-125 | the callback of every order command hands its handler arguments of the shape the handler reads |
| Cli.SideIsNoOption | bin/binance-cli.js:79-84 | `side` is not among the options of buy and sell |
| Cli.OrderSent | bin/binance-cli.js:86 | from the bag `{ side, ...args }`, an order is sent iff the credentials are truthy and the symbol and a string type are given; it goes to the venue's `newOrder` with the command's side, the symbol, the upper-cased type and the normalised parameters |
| Cli.RunOrder | bin/binance-cli.js:77-125 | each order handler does what `Performs` says: for buy and sell the outcome of the shared checks or the validated order in the venue's request shape; for the others the venue's call with the symbol and the selected order reference; never a request without credentials |
| Cli.Run | bin/binance-cli.js:24-707 | usage errors are exactly the failed dispatches; market and stream commands give the wired invocation; an order command runs its venue's handler, with that venue's credentials, on exactly the arguments dispatch wired |
| Cli.PlaceOrder | bin/binance-cli.js:77-86 | a `buy` or `sell` command line under any prefix is handled by that venue's `newOrder`, and is sent iff authorised with a symbol and a string type, as the validated order carrying BUY or SELL |

## Left out

- The market-data handlers (`commands/*/market.js`) and the stream
  handlers (`commands/spot/websocket.js`, `commands/websocket.js`) are
  single SDK calls or callback subscriptions. Dispatch to them is modelled
  as the `Invocation` record. Their default limits are not modelled.
- `histTrades` in `commands/futures/cm/market.js` reads an undefined
  `apiKey`. That file is not part of this model.
- SDK clients, network requests, base URLs and environment variables are
  left out. The credentials are parameters (`Credentials`, `Cli.Env`), and
  a request is the `Call` record handed to the client. The coin-margined
  client hands its payload through a `response.data()` method whose result
  the handlers `await`, while the others read `response.data`. `ReplyLines`
  stands for the payload once it has been read.
- `commander` is left out:
  - tokenising `process.argv` and parsing option values;
  - short flags, help and description texts;
  - the implicit `help` command and the `-h`/`--help` option, which the
    library answers itself. `Dispatch` reports them as `UnknownCommand`
    and `UnknownOption`;
  - `program.version`.
  Dispatch starts from the command word, the positional words and the
  options by long name. Surplus positional words are ignored.
- `JSON.stringify` and `console.log` formatting are abstract (`Json` and
  `Text` items). `printout` and `display` are unused and left out.
- Numbers are integers. Non-integer values, `-0` and `String` wrapper
  objects are not modelled. Inherited properties are not modelled either,
  so `error.response` reads own properties only.
- JsValues.Upper: covers ASCII letters only, not the full Unicode case
  mapping of `toUpperCase`.
- Adapter.OrderCheck: a side or type with its own `toUpperCase` property
  is treated as a crash like any other non-string.
- Util.RemoveEmptyValue: arrays and functions passed directly are not
  modelled. The option bags the adapters pass are always plain objects.
- PrettyPrint.PrintError: `printError(null)` and `printError(undefined)`
  throw when they read `error.response`. `PrintError`, `ReplyLines` and
  `Transcript` require an error that is neither; an SDK request rejects
  with an error object.
- CmTrade.Account: `commands/futures/cm/trade.js:18` calls
  `print(response.data())` without the `await` that the other
  coin-margined handlers (lines 49, 73, 97 and 104) and
  `commands/futures/cm/market.js` put before `response.data()`. If that
  call returns a promise, as those `await`s suggest, `print` is handed a
  pending promise. `typeof` gives `'object'`, so the line is its
  serialisation `{}`, not the account payload. `ReplyLines` and
  `Transcript` model the awaited payload for every sent request, so they
  do not capture this line.
- Promise ordering, `async`/`await`, and the unhandled-rejection exit of a
  crashed handler are left out. A crash is the `Crashed` outcome.
- Key insertion order of objects is left out. Objects are maps.
