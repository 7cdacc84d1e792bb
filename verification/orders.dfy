/** Validation of raw order input and construction of the parameter mapping
    for the futures create-order endpoint (`BasicBot.place_order`, before the
    send). */
module Orders {
  import opened Wrappers
  import opened Text
  import opened Numbers

  /** The three order types the bot offers; `place_order` only ever compares
      the type with the LIMIT and STOP_LIMIT constants. */
  datatype OrderType = Market | Limit | StopLimit

  /** The `quantity` argument: a Python int or float, or any other object. */
  datatype QuantityArg = Numeric(number: Number) | NonNumeric

  /** The arguments of `place_order` as the caller supplies them.  The side is
      never inspected, so it is kept as the opaque value it is. */
  datatype RawOrder = RawOrder(
    symbol: string,
    side: string,
    orderType: OrderType,
    quantity: QuantityArg,
    price: Option<Number>,
    stopPrice: Option<Number>)

  /** The four `ValueError`s raised by the validation, in the order they are checked. */
  datatype ValidationError = MissingSymbol | InvalidQuantity | MissingPrice | MissingStopParams

  /** The keyword arguments passed to the create-order call.  An optional key
      that is not in the mapping is `None`; the price and stop price carry the
      number that `str()` turns into text on the wire. */
  datatype Params = Params(
    symbol: string,
    side: string,
    orderType: OrderType,
    quantity: Number,
    newOrderRespType: string,
    price: Option<Number>,
    timeInForce: Option<string>,
    stopPrice: Option<Number>)

  /** Response type asking the venue for the full order detail. */
  const RespTypeFull := "FULL"

  /** Time-in-force "good till cancelled". */
  const TimeInForceGtc := "GTC"

  /** The text of each validation error; the text alone tells which check
      failed. */
  function Message(e: ValidationError): (m: string)
    ensures ErrorOfMessage(m) == Some(e)
  {
    match e
    case MissingSymbol => "Symbol is required"
    case InvalidQuantity => "Quantity must be a positive number"
    case MissingPrice => "Price required for limit orders"
    case MissingStopParams => "Both price and stop_price required for stop-limit orders"
  }

  /** Which validation error, if any, has text `m`: what a caller catching the
      `ValueError` can recover from `str(e)`. */
  function ErrorOfMessage(m: string): Option<ValidationError> {
    if m == "Symbol is required" then Some(MissingSymbol)
    else if m == "Quantity must be a positive number" then Some(InvalidQuantity)
    else if m == "Price required for limit orders" then Some(MissingPrice)
    else if m == "Both price and stop_price required for stop-limit orders" then Some(MissingStopParams)
    else None
  }

  /** The position of each check in the validation sequence. */
  function Rank(e: ValidationError): nat {
    match e
    case MissingSymbol => 0
    case InvalidQuantity => 1
    case MissingPrice => 2
    case MissingStopParams => 3
  }

  /** `symbol.strip().upper()`. */
  function NormalizeSymbol(s: string): string {
    Upper(Strip(s))
  }

  /** The normalised symbol is empty exactly when the input is all
      whitespace; otherwise it is trimmed and has no lower-case ASCII letter. */
  lemma NormalizeSymbolSpec(s: string)
    ensures NormalizeSymbol(s) == [] <==> AllSpace(s)
    ensures |NormalizeSymbol(s)| <= |s|
    ensures Trimmed(NormalizeSymbol(s)) && NoLowerAscii(NormalizeSymbol(s))
  {
    var lo := StripSpec(s);
    StripEmptyIffAllSpace(s);
    UpperSpec(Strip(s));
    UpperKeepsTrimmed(Strip(s));
  }

  /** A normalised symbol is left unchanged by normalising it again. */
  lemma NormalizeIdempotent(s: string)
    ensures NormalizeSymbol(NormalizeSymbol(s)) == NormalizeSymbol(s)
  {
    NormalizeSymbolSpec(s);
    StripTrimmed(NormalizeSymbol(s));
    UpperIdempotent(Strip(s));
  }

  /** A price argument that is given and non-zero, stated without Python's
      truth test. */
  predicate NonZero(p: Option<Number>) {
    p.Some? && p.value != Finite(0.0)
  }

  /** A number that is not `<= 0` in Python: a positive real, positive
      infinity, or NaN. */
  predicate PositiveOrNaN(n: Number) {
    (n.Finite? && n.value > 0.0) || n == Infinite(false) || n == NaN
  }

  /** Whether the input obeys the rule whose violation raises `e`. */
  predicate Satisfies(o: RawOrder, e: ValidationError) {
    match e
    case MissingSymbol => !AllSpace(o.symbol)
    case InvalidQuantity => o.quantity.Numeric? && PositiveOrNaN(o.quantity.number)
    case MissingPrice => o.orderType == Limit ==> NonZero(o.price)
    case MissingStopParams => o.orderType == StopLimit ==> NonZero(o.price) && NonZero(o.stopPrice)
  }

  /** The input obeys the first `n` rules of the validation sequence. */
  predicate RulesHoldBelow(o: RawOrder, n: nat) {
    && (n > Rank(MissingSymbol) ==> Satisfies(o, MissingSymbol))
    && (n > Rank(InvalidQuantity) ==> Satisfies(o, InvalidQuantity))
    && (n > Rank(MissingPrice) ==> Satisfies(o, MissingPrice))
    && (n > Rank(MissingStopParams) ==> Satisfies(o, MissingStopParams))
  }

  /** The input obeys every rule. */
  predicate Acceptable(o: RawOrder) {
    RulesHoldBelow(o, 4)
  }

  /** The internal consistency of a parameter mapping: a non-blank normalised
      symbol, a quantity that is not `<= 0`, the FULL response type, a price
      and GTC time-in-force exactly for the priced types, a stop price exactly
      for STOP_LIMIT, and no zero price. */
  predicate WellFormed(p: Params) {
    && p.symbol != [] && Trimmed(p.symbol) && NoLowerAscii(p.symbol)
    && PositiveOrNaN(p.quantity)
    && p.newOrderRespType == RespTypeFull
    && (p.price.Some? <==> p.orderType != Market)
    && (p.timeInForce.Some? <==> p.orderType != Market)
    && (p.timeInForce.Some? ==> p.timeInForce.value == TimeInForceGtc)
    && (p.stopPrice.Some? <==> p.orderType == StopLimit)
    && (p.price.Some? ==> NonZero(p.price))
    && (p.stopPrice.Some? ==> NonZero(p.stopPrice))
  }

  /** The mapping carries the input through: the normalised symbol, the side,
      type and quantity unchanged, and any price or stop price as supplied. */
  predicate Reflects(o: RawOrder, p: Params) {
    && p.symbol == NormalizeSymbol(o.symbol)
    && p.side == o.side
    && p.orderType == o.orderType
    && o.quantity == Numeric(p.quantity)
    && (p.price.Some? ==> p.price == o.price)
    && (p.stopPrice.Some? ==> p.stopPrice == o.stopPrice)
  }

  /** The keys of the mapping sent to the venue. */
  datatype Key = SymbolKey | SideKey | TypeKey | QuantityKey | RespTypeKey | PriceKey | TimeInForceKey | StopPriceKey

  /** The keyword each key is sent under. */
  function KeyName(k: Key): string {
    match k
    case SymbolKey => "symbol"
    case SideKey => "side"
    case TypeKey => "type"
    case QuantityKey => "quantity"
    case RespTypeKey => "newOrderRespType"
    case PriceKey => "price"
    case TimeInForceKey => "timeInForce"
    case StopPriceKey => "stopPrice"
  }

  /** The keys every mapping carries, whatever the order type. */
  const BaseKeys: set<Key> := {SymbolKey, SideKey, TypeKey, QuantityKey, RespTypeKey}

  /** The keys present in the mapping. */
  function Keys(p: Params): set<Key> {
    BaseKeys
    + (if p.price.Some? then {PriceKey} else {})
    + (if p.timeInForce.Some? then {TimeInForceKey} else {})
    + (if p.stopPrice.Some? then {StopPriceKey} else {})
  }

  /** Python `not p` for an optional price: `None` or zero. */
  predicate Falsy(p: Option<Number>) {
    p.None? || !Truthy(p.value)
  }

  /** `isinstance(quantity, (int, float)) and not quantity <= 0`. */
  predicate QuantityPasses(q: QuantityArg) {
    q.Numeric? && !AtMostZero(q.number)
  }

  /** The checks of `place_order` after the symbol has been normalised to
      `symbol`: the error of the first check that fails, or `None`. */
  function CheckNormalized(symbol: string, o: RawOrder): (r: Option<ValidationError>)
    requires symbol == [] <==> AllSpace(o.symbol)
    ensures r.None? <==> Acceptable(o)
    ensures r.Some? ==> !Satisfies(o, r.value)
    ensures r.Some? ==> RulesHoldBelow(o, Rank(r.value))
  {
    if symbol == [] then
      Some(MissingSymbol)
    else if !QuantityPasses(o.quantity) then
      Some(InvalidQuantity)
    else if o.orderType == Limit && Falsy(o.price) then
      Some(MissingPrice)
    else if o.orderType == StopLimit && (Falsy(o.price) || Falsy(o.stopPrice)) then
      Some(MissingStopParams)
    else
      None
  }

  /** The validation of `place_order`: the error of the first check the
      input fails, or `None` when it passes them all. */
  function FirstError(o: RawOrder): (r: Option<ValidationError>)
    ensures r.None? <==> Acceptable(o)
    ensures r.Some? ==> !Satisfies(o, r.value)
    ensures r.Some? ==> RulesHoldBelow(o, Rank(r.value))
  {
    NormalizeSymbolSpec(o.symbol);
    CheckNormalized(NormalizeSymbol(o.symbol), o)
  }

  /** The parameter mapping for an input that passed validation: the five
      keys every order has, then price and GTC for LIMIT and STOP_LIMIT, then
      the stop price for STOP_LIMIT. */
  function Assemble(o: RawOrder): (p: Params)
    requires Acceptable(o)
    ensures WellFormed(p) && Reflects(o, p)
  {
    NormalizeSymbolSpec(o.symbol);
    assert Satisfies(o, MissingSymbol) && Satisfies(o, InvalidQuantity);
    assert Satisfies(o, MissingPrice) && Satisfies(o, MissingStopParams);
    var priced := o.orderType == Limit || o.orderType == StopLimit;
    Params(
      NormalizeSymbol(o.symbol),
      o.side,
      o.orderType,
      o.quantity.number,
      RespTypeFull,
      if priced then o.price else None,
      if priced then Some(TimeInForceGtc) else None,
      if o.orderType == StopLimit then o.stopPrice else None)
  }

  /** `place_order` up to the send: validate, first failure winning, and on
      success assemble the parameter mapping for the order type. */
  function Build(o: RawOrder): (r: Result<Params, ValidationError>)
    ensures r.Success? <==> Acceptable(o)
    ensures r.Failure? ==> !Satisfies(o, r.error)
    ensures r.Failure? ==> RulesHoldBelow(o, Rank(r.error))
    ensures r.Success? ==> WellFormed(r.value) && Reflects(o, r.value)
  {
    match FirstError(o)
    case Some(e) => Failure(e)
    case None => Success(Assemble(o))
  }
}
