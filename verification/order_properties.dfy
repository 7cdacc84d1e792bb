/** Properties of `place_order`'s validation and parameter construction,
    stated over all inputs. */
module OrderProperties {
  import opened Wrappers
  import opened Text
  import opened Numbers
  import opened Orders

  /** A normalised symbol that is not blank is the upper-cased piece of the
      input that starts at `lo` and has only whitespace around it. */
  lemma NormalizedPiece(s: string) returns (lo: int)
    requires !AllSpace(s)
    ensures var sym := NormalizeSymbol(s);
      && 0 <= lo <= |s| - |sym|
      && sym == Upper(s[lo..lo + |sym|])
      && AllSpace(s[..lo]) && AllSpace(s[lo + |sym|..])
      && sym != [] && !IsSpace(sym[0]) && !IsSpace(sym[|sym| - 1])
  {
    var r := Strip(s);
    lo := StripSpec(s);
    UpperSpec(r);
    UpperKeepsTrimmed(r);
    StripEmptyIffAllSpace(s);
    var sym := Upper(r);
    assert |sym| == |r| && r != [];
    assert s[lo..lo + |sym|] == r;
    assert AllSpace(s[lo + |sym|..]);
  }

  /** The emitted symbol is the input with its surrounding whitespace removed
      and then upper-cased: `lo` is where the kept piece starts. */
  lemma EmittedSymbol(o: RawOrder) returns (lo: int)
    requires Build(o).Success?
    ensures var sym := Build(o).value.symbol;
      && 0 <= lo <= |o.symbol| - |sym|
      && sym == Upper(o.symbol[lo..lo + |sym|])
      && AllSpace(o.symbol[..lo]) && AllSpace(o.symbol[lo + |sym|..])
      && sym != [] && !IsSpace(sym[0]) && !IsSpace(sym[|sym| - 1])
  {
    assert Satisfies(o, MissingSymbol);
    assert Build(o).value.symbol == NormalizeSymbol(o.symbol);
    lo := NormalizedPiece(o.symbol);
  }

  /** A symbol that is blank after stripping is reported first, whatever the
      quantity, type and prices are; no other input raises that error. */
  lemma BlankSymbolFirst(o: RawOrder)
    ensures Build(o) == Failure(MissingSymbol) <==> AllSpace(o.symbol)
  {
    var r := Build(o);
    if r.Failure? && r.error != MissingSymbol {
      assert Rank(MissingSymbol) < Rank(r.error);
    }
  }

  /** A quantity that is not a number, or is a number `<= 0`, is rejected
      whatever the order type; NaN and positive infinity get through. */
  lemma QuantityRule(o: RawOrder)
    requires !AllSpace(o.symbol)
    ensures o.quantity.NonNumeric? ==> Build(o) == Failure(InvalidQuantity)
    ensures o.quantity.Numeric? && o.quantity.number.Finite? ==>
      (Build(o) == Failure(InvalidQuantity) <==> o.quantity.number.value <= 0.0)
    ensures o.quantity == Numeric(Infinite(true)) ==> Build(o) == Failure(InvalidQuantity)
    ensures o.quantity == Numeric(Infinite(false)) || o.quantity == Numeric(NaN) ==>
      Build(o) != Failure(InvalidQuantity)
  {
    var r := Build(o);
    assert Satisfies(o, MissingSymbol);
    if r.Failure? && Rank(r.error) > Rank(InvalidQuantity) {
      assert Satisfies(o, InvalidQuantity);
    }
  }

  /** A LIMIT order that gets past the symbol and quantity checks is rejected
      exactly when its price is absent or zero: a negative price passes, and
      the stop price plays no part. */
  lemma LimitPriceRule(o: RawOrder)
    requires o.orderType == Limit
    requires !AllSpace(o.symbol) && QuantityPasses(o.quantity)
    ensures Build(o) == Failure(MissingPrice) <==> o.price == None || o.price == Some(Finite(0.0))
    ensures Build(o).Success? <==> !(o.price == None || o.price == Some(Finite(0.0)))
  {
    assert Satisfies(o, MissingSymbol) && Satisfies(o, InvalidQuantity);
    assert Satisfies(o, MissingStopParams);
  }

  /** A STOP_LIMIT order that gets past the symbol and quantity checks is
      rejected exactly when the price or the stop price is absent or zero. */
  lemma StopLimitRule(o: RawOrder)
    requires o.orderType == StopLimit
    requires !AllSpace(o.symbol) && QuantityPasses(o.quantity)
    ensures Build(o) == Failure(MissingStopParams) <==>
      o.price == None || o.price == Some(Finite(0.0)) || o.stopPrice == None || o.stopPrice == Some(Finite(0.0))
    ensures Build(o).Success? <==>
      !(o.price == None || o.price == Some(Finite(0.0)) || o.stopPrice == None || o.stopPrice == Some(Finite(0.0)))
  {
    assert Satisfies(o, MissingSymbol) && Satisfies(o, InvalidQuantity) && Satisfies(o, MissingPrice);
  }

  /** In any consistent mapping the keys present are fixed by the order
      type. */
  lemma KeysOfWellFormed(p: Params)
    requires WellFormed(p)
    ensures p.orderType == Market ==> Keys(p) == BaseKeys
    ensures p.orderType == Limit ==> Keys(p) == BaseKeys + {PriceKey, TimeInForceKey}
    ensures p.orderType == StopLimit ==> Keys(p) == BaseKeys + {PriceKey, TimeInForceKey, StopPriceKey}
  {
  }

  /** A successful mapping always carries symbol, side, type, quantity and the
      FULL response type, with side and type as given; price and GTC are
      present for LIMIT and STOP_LIMIT only, and the stop price for
      STOP_LIMIT only. */
  lemma KeysByType(o: RawOrder)
    requires Build(o).Success?
    ensures var p := Build(o).value;
      && p.side == o.side && p.orderType == o.orderType && p.newOrderRespType == "FULL"
      && (o.orderType == Market ==> Keys(p) == BaseKeys)
      && (o.orderType == Limit ==> Keys(p) == BaseKeys + {PriceKey, TimeInForceKey})
      && (o.orderType == StopLimit ==> Keys(p) == BaseKeys + {PriceKey, TimeInForceKey, StopPriceKey})
  {
    var p := Build(o).value;
    assert WellFormed(p) && Reflects(o, p);
    KeysOfWellFormed(p);
  }

  /** A MARKET order ignores any price or stop price it is given: the outcome
      is the one for the same order without them. */
  lemma MarketDropsPrices(o: RawOrder)
    requires o.orderType == Market
    ensures Build(o) == Build(o.(price := None, stopPrice := None))
  {
  }

  /** A LIMIT order ignores any stop price it is given. */
  lemma LimitDropsStopPrice(o: RawOrder)
    requires o.orderType == Limit
    ensures Build(o) == Build(o.(stopPrice := None))
  {
  }

  /** The eight keys are sent under eight different names. */
  lemma KeyNamesDistinct(k1: Key, k2: Key)
    ensures KeyName(k1) == KeyName(k2) ==> k1 == k2
  {
  }

  /** The four validation errors have four different messages. */
  lemma MessagesDistinct(e1: ValidationError, e2: ValidationError)
    ensures Message(e1) == Message(e2) ==> e1 == e2
  {
    assert ErrorOfMessage(Message(e1)) == Some(e1) && ErrorOfMessage(Message(e2)) == Some(e2);
  }
}
