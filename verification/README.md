# Binance futures trading bot: order validation and placement, in Dafny

This project models the core of a small Binance futures trading bot
(`bot.py`). The core is `BasicBot.place_order`. It takes loosely typed order input:
symbol, side, order type, quantity, and an optional price and stop price. It then:

1. normalises the symbol (`strip()` then `upper()`) and runs four checks in a
   fixed order. The first failing check raises a `ValueError`.
2. builds the keyword-argument mapping for the futures create-order endpoint.
   The keys depend on the order type: MARKET, LIMIT or STOP_LIMIT.
3. makes exactly one create-order call and returns its response, or re-raises
   its error unchanged.

It also models the bot's constructor. The constructor points the client at the
test venue and runs a startup account query. A failure of that query, or of
reading the USDT balance from its reply, becomes a `ConnectionError`.

Modules:

- `Wrappers` (`wrappers.dfy`): `Option` (Python `None`) and `Result` (return or raise).
- `Text` (`text.dfy`): Python's argument-less `str.strip()` over Python's whitespace
  set, and `str.upper()` for ASCII letters. It proves that `Strip` is the
  unique trimmed piece of the input with only whitespace around it.
- `Numbers` (`numbers.dfy`): Python ints and floats as the `real` value, plus
  the two infinities and NaN. It defines Python's truth test and `n <= 0` on them.
- `Orders` (`orders.dfy`): the raw input, the four validation errors, the parameter
  mapping, and `Build`. `Build` is validation followed by assembly. Its contract
  is stated against rules written without Python's truth tests (`Satisfies`),
  against the validation order (`Rank`), and against the consistency invariant
  of a mapping (`WellFormed`).
- `OrderProperties` (`order_properties.dfy`): all-input lemmas for each rule.
- `BasicBot` (`basic_bot.dfy`): the constructor with its startup check, and
  `PlaceOrder`. The venue's replies are parameters. `PlaceOrder` returns the
  list of create-order calls it made, so "no call on a validation failure" and
  "exactly one call otherwise" are statements about its result.
- `Scenarios` (`scenarios.dfy`): concrete orders worked through.

Where a natural reading of the bot's intent and the code differ, the model
follows the code:

- The quantity check is `isinstance(q, (int, float)) and not q <= 0`. NaN and
  positive infinity therefore pass it; a "finite positive" rule would refuse them.
- A price counts as missing only when it is `None` or zero (`not price`). A
  negative price passes the LIMIT and STOP_LIMIT checks.
- The side is never checked. Any value is passed through.
- The startup check needs more than a successful account query. The code reads
  the first `USDT` entry's `availableBalance` with `float()` inside the same
  `try`. A reply without an `assets` key, without a `USDT` entry, or with an
  unreadable balance also ends in `ConnectionError`.
- Not every constructor failure becomes a `ConnectionError`. The client is
  created (bot.py:23) before the `try` (bot.py:29), so an exception raised
  there reaches the caller as it is, without the "Failed to connect to API: "
  prefix.

## Model

| member | source | states |
|---|---|---|
| Text.TrimStartSpec | bot.py:40 | the result is a suffix of the input, everything removed is whitespace, and the result does not start with whitespace |
| Text.TrimEndSpec | bot.py:40 | the result is a prefix of the input, everything removed is whitespace, and the result does not end with whitespace |
| Text.StripSpec | bot.py:40 | the stripped symbol is a contiguous piece of the input with only whitespace before and after it, and it has no whitespace at either end |
| Text.TrimStartAt | bot.py:40 | if the leading whitespace ends at `lo`, then `lstrip()` keeps exactly `s[lo..]` |
| Text.TrimEndAt | bot.py:40 | if the trailing whitespace starts at `hi`, then `rstrip()` keeps exactly `s[..hi]` |
| Text.StripUnique | bot.py:40 | any trimmed piece of `s` with only whitespace around it equals `Strip(s)`, so the surrounding-whitespace description fully determines `strip()` |
| Text.StripEmptyIffAllSpace | bot.py:40-41 | `strip()` returns the empty string exactly when the input is all whitespace, including the empty input |
| Text.StripTrimmed | bot.py:40 | a string with no whitespace at either end is left unchanged by `strip()` |
| Text.UpperSpec | bot.py:40 | `upper()` keeps the length, maps each character by the ASCII case rule, and leaves no lower-case ASCII letter |
| Text.UpperCharKeepsSpace | bot.py:40 | upper-casing a character never changes whether it is whitespace |
| Text.UpperKeepsTrimmed | bot.py:40 | upper-casing a trimmed string keeps it trimmed |
| Text.UpperIdempotent | bot.py:40 | upper-casing twice gives the same result as upper-casing once |
| Numbers.FalsyIsZero | bot.py:47 | Python's `not n` holds for a number exactly when it is zero; NaN and the infinities are truthy |
| Numbers.NotAtMostZero | bot.py:44 | `n <= 0` is false exactly for positive reals, positive infinity and NaN |
| Orders.NormalizeSymbolSpec | bot.py:40-41 | the normalised symbol is empty exactly when the input is all whitespace; otherwise it is trimmed and has no lower-case ASCII letter |
| Orders.NormalizeIdempotent | bot.py:40 | normalising an already normalised symbol changes nothing |
| Orders.Message | bot.py:42-51 | each validation error has its own text, and the text alone tells which check failed |
| Orders.CheckNormalized | bot.py:41-51 | the checks after normalisation report the first rule the input breaks, every earlier rule holds, and no error is reported exactly when all rules hold |
| Orders.FirstError | bot.py:40-51 | the validation reports an error exactly when some rule is broken, and the reported error's rule is broken while every earlier rule holds |
| Orders.Assemble | bot.py:54-68 | for valid input, the mapping is consistent with its type and carries the normalised symbol, side, type, quantity and any price as given |
| Orders.Build | bot.py:37-68 | succeeds exactly when all four rules hold; on failure the first broken rule wins; on success the mapping is consistent and reflects the input |
| OrderProperties.NormalizedPiece | bot.py:40-41 | a symbol that is not blank normalises to the upper-cased piece of the input with only whitespace around it, non-empty and with no whitespace at either end |
| OrderProperties.EmittedSymbol | bot.py:40-55 | the emitted symbol is the upper-cased piece of the input that has only whitespace around it, and it is non-empty and trimmed |
| OrderProperties.BlankSymbolFirst | bot.py:40-42 | "Symbol is required" is raised exactly when the symbol is all whitespace, even when quantity or prices are also invalid |
| OrderProperties.QuantityRule | bot.py:44-45 | for any order type, a non-numeric quantity or a quantity `<= 0` is rejected; for finite values, rejection happens exactly when the value is `<= 0`; NaN and +inf pass |
| OrderProperties.LimitPriceRule | bot.py:47-48 | a LIMIT order is rejected exactly when its price is absent or zero; a negative price passes |
| OrderProperties.StopLimitRule | bot.py:50-51 | a STOP_LIMIT order is rejected exactly when its price or stop price is absent or zero, and is accepted otherwise |
| OrderProperties.KeysOfWellFormed | bot.py:54-68 | any consistent mapping has exactly the five base keys plus price and timeInForce for LIMIT, and plus stopPrice as well for STOP_LIMIT |
| OrderProperties.KeysByType | bot.py:54-68 | the mapping always has symbol, side, type, quantity and newOrderRespType=FULL, with side and type unchanged; price and timeInForce are present exactly for LIMIT and STOP_LIMIT, and stopPrice exactly for STOP_LIMIT |
| OrderProperties.MarketDropsPrices | bot.py:63-68 | a MARKET order's supplied price and stop price have no effect on the outcome |
| OrderProperties.LimitDropsStopPrice | bot.py:67-68 | a LIMIT order's supplied stop price has no effect on the outcome |
| OrderProperties.KeyNamesDistinct | bot.py:54-68 | the eight keyword names of the mapping are pairwise different, so no key overwrites another |
| OrderProperties.MessagesDistinct | bot.py:42-51 | the four validation messages are pairwise different |
| BasicBot.ConnectErrorText | bot.py:29-35 | an account object without `assets` yields "Failed to connect to API: 'assets'", and a raised query yields the prefix followed by the error's text |
| BasicBot.NoCheckedAssetText | bot.py:31-35 | an asset list with no USDT entry yields exactly "Failed to connect to API: " |
| BasicBot.FindsFirstCheckedAsset | bot.py:32 | when the first USDT entry is at position `k`, the lookup returns `k` |
| BasicBot.BalanceErrorText | bot.py:31-35 | when the first USDT entry lacks `availableBalance` the text is "Failed to connect to API: 'availableBalance'", and when `float()` refuses the balance it is the prefix followed by the refusal's text |
| BasicBot.FindAsset | bot.py:32 | finds the first entry for the asset, if there is one; every entry before it is a different asset, and `None` means no entry matches |
| BasicBot.Connect | bot.py:22-35 | a bot is returned exactly when the account query succeeds and the first USDT entry has a readable balance; a failed query is wrapped unchanged; the bot keeps its credentials and test flag, and a test bot targets the testnet futures URL |
| BasicBot.PlaceOrder | bot.py:37-80 | at most one create-order call; no call exactly when validation fails, and then the validation error is raised; otherwise one call with the built mapping, and the reply to that first call (not to any later one) reaches the caller unchanged |
| BasicBot.NoRetry | bot.py:70-80 | two venues that answer the first create-order call alike give the same result, whatever they would answer to a second call, so nothing is retried |
| BasicBot.InvalidIgnoresVenue | bot.py:40-72 | an order that fails validation gives the same result whatever the venue would have replied |
| BasicBot.ErrorKindPreserved | bot.py:75-80 | an API error and any other send error stay distinguishable: the caller sees exactly the kind the call raised |
| Scenarios.LowerCaseMarket | bot.py:40-60 | `btcusdt` MARKET 0.01 is sent as `BTCUSDT` with only the five base keys |
| Scenarios.UpperLiteral | bot.py:40 | `upper()` of the two example symbols |
| Scenarios.PaddedSymbol | bot.py:40 | surrounding whitespace, including a tab, is removed from the symbol |
| Scenarios.LimitWithoutPrice | bot.py:47-48 | a LIMIT order without a price raises "Price required for limit orders" |
| Scenarios.LimitNegativePrice | bot.py:47-65 | a LIMIT order with price -5 is sent with that price and GTC |
| Scenarios.StopLimitWithoutStop | bot.py:50-51 | a STOP_LIMIT order without a stop price is refused |
| Scenarios.EmptySymbolFirst | bot.py:40-45 | an empty symbol is reported even when the quantity is not a number |
| Scenarios.NaNQuantityPasses | bot.py:44 | a NaN quantity passes the quantity check |

## Left out

- Logging configuration and every log call (bot.py:10-19, 26, 31, 34, 71-79). They are side effects with no behaviour to verify.
- The python-binance `Client` itself (bot.py:23) and the network. The account query's reply and each create-order reply are parameters (`AccountReply`, and `(nat, Params) -> VenueReply`, the reply to a call given how many calls came before it). The contract rules out an outcome taken from any call but the first. The production futures URL is the library's default and appears as `None`.
- The `float()` conversion of the USDT balance (bot.py:32) is not modelled as text parsing. The balance field arrives already parsed, unparsable (with the error text) or absent. The value is only logged, so the bot does not keep it.
- Entries of `assets` that lack an `asset` key are not represented. In the code such an entry before the first USDT entry would raise `KeyError`, which also becomes `ConnectionError`.
- `str(price)` and `str(stop_price)` (bot.py:64, 68) are Python float formatting. The mapping carries the number itself.
- The string values of the library constants `ORDER_TYPE_*`, `TIME_IN_FORCE_GTC` and `SIDE_*` come from python-binance, which is not part of this model. Order types are an enumeration, GTC is written `"GTC"`, and the side is an opaque string.
- BasicBot.Connect: an exception raised while constructing the client (bot.py:23) is not represented. It happens outside the `try`, so the code would not wrap it in a `ConnectionError`; the reply parameter only covers the account query and the balance read (bot.py:29-35).
- BasicBot.PlaceOrder: a create-order call whose reply is ignored leaves no trace: the venue is a pure function, and the calls made are recorded only in the `sent` list that `PlaceOrder` itself returns.
- A symbol that is not a `str` (for example `None`) is not represented: `RawOrder.symbol` is a string. In the code `.strip()` on it raises `AttributeError` (bot.py:40) before any check runs.
- A `bool` quantity (Python's `isinstance(True, int)` holds) and a price argument that is not a number are not represented. The CLI and GUI only pass floats or `None`.
- The CLI (bot.py:82-148) and the Tkinter GUI (bot.py:150-286). They handle argument parsing, the text-to-constant mapping, `float()` parsing of form fields and printing, all of which is presentation.
- Text.UpperSpec: only ASCII letters are upper-cased. Python's Unicode case mapping, including length-changing cases such as `ß` becoming `SS`, is not modelled.
