/** Concrete orders worked through the validator and builder. */
module Scenarios {
  import opened Wrappers
  import opened Text
  import opened Numbers
  import opened Orders
  import opened OrderProperties

  /** A lower-case MARKET order is upper-cased and sent with the five base
      keys only. */
  lemma LowerCaseMarket()
    ensures var r := Build(RawOrder("btcusdt", "BUY", Market, Numeric(Finite(0.01)), None, None));
      && r.Success? && r.value.symbol == "BTCUSDT" && r.value.quantity == Finite(0.01)
      && Keys(r.value) == BaseKeys
  {
    var o := RawOrder("btcusdt", "BUY", Market, Numeric(Finite(0.01)), None, None);
    assert Strip(o.symbol) == "btcusdt" by {
      StripTrimmed("btcusdt");
    }
    assert NormalizeSymbol(o.symbol) == "BTCUSDT" by {
      UpperLiteral();
    }
    assert Acceptable(o);
    KeysByType(o);
  }

  /** The upper-casing used by the scenarios. */
  lemma UpperLiteral()
    ensures Upper("btcusdt") == "BTCUSDT"
    ensures Upper("ethusdt") == "ETHUSDT"
  {
    var a, b := Upper("btcusdt"), Upper("ethusdt");
    assert |a| == 7 && |b| == 7;
    assert a[0] == 'B' && a[1] == 'T' && a[2] == 'C' && a[3] == 'U' && a[4] == 'S' && a[5] == 'D' && a[6] == 'T';
    assert b[0] == 'E' && b[1] == 'T' && b[2] == 'H' && b[3] == 'U' && b[4] == 'S' && b[5] == 'D' && b[6] == 'T';
  }

  /** Whitespace around the symbol is removed before it is sent. */
  lemma PaddedSymbol()
    ensures NormalizeSymbol(" ethusdt\t") == "ETHUSDT"
  {
    var s := " ethusdt\t";
    assert Strip(s) == "ethusdt" by {
      assert s[..1] == " " && s[1..1 + 7] == "ethusdt" && s[1 + 7..] == "\t";
      StripUnique(s, "ethusdt", 1);
    }
    UpperLiteral();
  }

  /** A LIMIT order without a price is refused. */
  lemma LimitWithoutPrice()
    ensures Build(RawOrder("ETHUSDT", "SELL", Limit, Numeric(Finite(1.0)), None, None)) == Failure(MissingPrice)
  {
    var o := RawOrder("ETHUSDT", "SELL", Limit, Numeric(Finite(1.0)), None, None);
    assert !AllSpace(o.symbol) by {
      assert !IsSpace(o.symbol[0]);
    }
    LimitPriceRule(o);
  }

  /** A LIMIT order with a negative price passes validation and is sent
      with that price and GTC. */
  lemma LimitNegativePrice()
    ensures var r := Build(RawOrder("ETHUSDT", "SELL", Limit, Numeric(Finite(1.0)), Some(Finite(-5.0)), None));
      && r.Success? && r.value.price == Some(Finite(-5.0)) && r.value.timeInForce == Some("GTC")
  {
    var o := RawOrder("ETHUSDT", "SELL", Limit, Numeric(Finite(1.0)), Some(Finite(-5.0)), None);
    assert !AllSpace(o.symbol) by {
      assert !IsSpace(o.symbol[0]);
    }
    LimitPriceRule(o);
  }

  /** A STOP_LIMIT order without a stop price is refused. */
  lemma StopLimitWithoutStop()
    ensures Build(RawOrder("BTCUSDT", "BUY", StopLimit, Numeric(Finite(0.5)), Some(Finite(60000.0)), None))
      == Failure(MissingStopParams)
  {
    var o := RawOrder("BTCUSDT", "BUY", StopLimit, Numeric(Finite(0.5)), Some(Finite(60000.0)), None);
    assert !AllSpace(o.symbol) by {
      assert !IsSpace(o.symbol[0]);
    }
    StopLimitRule(o);
  }

  /** An empty symbol is refused before the quantity is looked at. */
  lemma EmptySymbolFirst()
    ensures Build(RawOrder("", "BUY", Market, NonNumeric, None, None)) == Failure(MissingSymbol)
  {
  }

  /** A NaN quantity is not `<= 0`, so it passes the quantity check. */
  lemma NaNQuantityPasses()
    ensures Build(RawOrder("BTCUSDT", "BUY", Market, Numeric(NaN), None, None)).Success?
  {
    var o := RawOrder("BTCUSDT", "BUY", Market, Numeric(NaN), None, None);
    assert !AllSpace(o.symbol) by {
      assert !IsSpace(o.symbol[0]);
    }
    assert Acceptable(o);
  }
}
