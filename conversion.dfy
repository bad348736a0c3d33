/** Currency conversion pivoting on the euro, and the gain percentage of a
    swap that uses it (CurrencyConverter and SwapCalculator of the ingestion
    API).  Market rates (`fiatPrices`) are quoted against the euro:
    `fiatPrices[c]` units of `c` buy one euro. */
module Conversion {
  import opened Wrappers
  import opened Json

  /** `float(fiat_prices[currency])`. */
  function RateOf(fiatPrices: Json, currency: string, parse: string -> Option<real>): Result<real> {
    var v :- Index(fiatPrices, currency);
    FloatOf(v, parse)
  }

  datatype CurrencyConverter = CurrencyConverter(fiatPrices: Json) {

    /** `convert(amount, from, to)`.  Only a conversion out of or into the
        euro consults a rate; between two other currencies the amount is
        returned as it is. */
    function Convert(amount: real, from: string, to: string, parse: string -> Option<real>): (r: Result<real>)
      ensures from == to ==> r == Ok(amount)
      ensures from != "EUR" && to != "EUR" ==> r == Ok(amount)
    {
      if from == to then Ok(amount)
      else if from == "EUR" then
        match RateOf(fiatPrices, to, parse)
        case Raised => Raised
        case Ok(rate) => Ok(amount * rate)
      else if to == "EUR" then
        match RateOf(fiatPrices, from, parse)
        case Raised => Raised
        case Ok(rate) => if rate == 0.0 then Raised else Ok(amount / rate)
      else Ok(amount)
    }
  }

  /** Out of the euro, the amount is multiplied by the target's rate. */
  lemma ConvertFromEuro(c: CurrencyConverter, amount: real, to: string, parse: string -> Option<real>, rate: real)
    requires to != "EUR" && RateOf(c.fiatPrices, to, parse) == Ok(rate)
    ensures c.Convert(amount, "EUR", to, parse) == Ok(amount * rate)
  {
    assert c.Convert(amount, "EUR", to, parse).Ok?;
    assert c.Convert(amount, "EUR", to, parse).value == amount * rate;
  }

  /** A conversion raises exactly when it needs a rate that is missing, is
      not a number, or is zero and divides. */
  lemma ConvertRaises(c: CurrencyConverter, amount: real, from: string, to: string, parse: string -> Option<real>)
    ensures c.Convert(amount, from, to, parse).Raised? <==>
              from != to &&
              ((from == "EUR" && RateOf(c.fiatPrices, to, parse).Raised?) ||
               (from != "EUR" && to == "EUR" &&
                (RateOf(c.fiatPrices, from, parse).Raised? || RateOf(c.fiatPrices, from, parse).value == 0.0)))
  {
  }

  /** Into the euro, the amount is divided by the source's rate. */
  lemma ConvertToEuro(c: CurrencyConverter, amount: real, from: string, parse: string -> Option<real>, rate: real)
    requires from != "EUR" && RateOf(c.fiatPrices, from, parse) == Ok(rate) && rate != 0.0
    ensures c.Convert(amount, from, "EUR", parse) == Ok(amount / rate)
  {
  }

  /** Converting out of the euro and back returns the amount. */
  lemma ConvertRoundTrip(c: CurrencyConverter, amount: real, other: string, parse: string -> Option<real>)
    requires other != "EUR" && RateOf(c.fiatPrices, other, parse).Ok? && RateOf(c.fiatPrices, other, parse).value != 0.0
    ensures c.Convert(amount, "EUR", other, parse).Ok?
    ensures c.Convert(c.Convert(amount, "EUR", other, parse).value, other, "EUR", parse) == Ok(amount)
  {
    var rate := RateOf(c.fiatPrices, other, parse).value;
    ConvertFromEuro(c, amount, other, parse, rate);
    ConvertToEuro(c, amount * rate, other, parse, rate);
    assert amount * rate / rate == amount;
  }

  /** Converting into the euro and back returns the amount. */
  lemma ConvertRoundTripInverse(c: CurrencyConverter, amount: real, other: string, parse: string -> Option<real>)
    requires other != "EUR" && RateOf(c.fiatPrices, other, parse).Ok? && RateOf(c.fiatPrices, other, parse).value != 0.0
    ensures c.Convert(amount, other, "EUR", parse).Ok?
    ensures c.Convert(c.Convert(amount, other, "EUR", parse).value, "EUR", other, parse) == Ok(amount)
  {
    var rate := RateOf(c.fiatPrices, other, parse).value;
    ConvertToEuro(c, amount, other, parse, rate);
    var q := amount / rate;
    ConvertFromEuro(c, q, other, parse, rate);
    assert c.Convert(amount, other, "EUR", parse).value == q;
    assert q * rate == amount;
    assert c.Convert(q, "EUR", other, parse) == Ok(amount);
  }

  /** `_is_relevant_pair`: only the pairs EUR to USD and USD to EUR. */
  predicate IsRelevantPair(from: Json, to: Json) {
    (from, to) == (Str("EUR"), Str("USD")) || (from, to) == (Str("USD"), Str("EUR"))
  }

  /** `pairs[side]['currency']`. */
  function SideCurrency(pairs: Json, side: string): Result<Json> {
    var s :- Index(pairs, side);
    Index(s, "currency")
  }

  datatype SwapCalculator = SwapCalculator(swapConfig: Json, converter: CurrencyConverter) {

    /** `_poundered_amount`: 100 converted from the source to the target
        currency for a relevant pair, 100 for every other pair. */
    function PounderedAmount(pairs: Json, parse: string -> Option<real>): (r: Result<real>)
      ensures SideCurrency(pairs, "from").Raised? || SideCurrency(pairs, "to").Raised? ==> r.Raised?
      ensures (SideCurrency(pairs, "from").Ok? && SideCurrency(pairs, "to").Ok? &&
               !IsRelevantPair(SideCurrency(pairs, "from").value, SideCurrency(pairs, "to").value)) ==> r == Ok(100.0)
    {
      var from :- SideCurrency(pairs, "from");
      var to :- SideCurrency(pairs, "to");
      if IsRelevantPair(from, to) then converter.Convert(100.0, from.s, to.s, parse) else Ok(100.0)
    }

    /** `calculate_percentage`: `100 * exchangeRate` less the poundered
        amount.  An exchange rate that is not a number makes the arithmetic
        raise. */
    function CalculatePercentage(pairs: Json, parse: string -> Option<real>): (r: Result<real>)
      ensures r.Ok? <==> ExchangeRate().Some? && PounderedAmount(pairs, parse).Ok?
      ensures r.Ok? ==> r.value == 100.0 * ExchangeRate().value - PounderedAmount(pairs, parse).value
    {
      var rate :- if ExchangeRate().Some? then Ok(ExchangeRate().value) else Raised;
      var p :- PounderedAmount(pairs, parse);
      Ok(100.0 * rate - p)
    }

    /** `swap_config['exchangeRate']` as a number, if it is one. */
    function ExchangeRate(): Option<real> {
      if Index(swapConfig, "exchangeRate").Ok? then NumberOf(Index(swapConfig, "exchangeRate").value) else None
    }
  }

  /** The two currency codes differ (from their first letter on). */
  lemma DollarIsNotEuro()
    ensures "USD" != "EUR"
  {
    assert "USD"[0] != "EUR"[0];
  }

  /** The gain from a known exchange rate and a known poundered amount. */
  lemma PercentageOfPoundered(swap: SwapCalculator, pairs: Json, parse: string -> Option<real>, rate: real, p: real)
    requires swap.ExchangeRate() == Some(rate) && swap.PounderedAmount(pairs, parse) == Ok(p)
    ensures swap.CalculatePercentage(pairs, parse) == Ok(100.0 * rate - p)
  {
    DollarIsNotEuro();
  }

  /** For every pair other than EUR/USD, the gain does not depend on the
      market rates. */
  lemma PercentageIgnoresRatesOfOtherPairs(config: Json, prices1: Json, prices2: Json, pairs: Json, parse: string -> Option<real>)
    requires SideCurrency(pairs, "from").Ok? && SideCurrency(pairs, "to").Ok?
    requires !IsRelevantPair(SideCurrency(pairs, "from").value, SideCurrency(pairs, "to").value)
    ensures SwapCalculator(config, CurrencyConverter(prices1)).CalculatePercentage(pairs, parse)
         == SwapCalculator(config, CurrencyConverter(prices2)).CalculatePercentage(pairs, parse)
    ensures SwapCalculator(config, CurrencyConverter(prices1)).ExchangeRate().Some? ==>
              SwapCalculator(config, CurrencyConverter(prices1)).CalculatePercentage(pairs, parse)
                == Ok(100.0 * SwapCalculator(config, CurrencyConverter(prices1)).ExchangeRate().value - 100.0)
  {
  }

  /** For EUR to USD the gain is `100 * exchangeRate - 100 * USD rate`. */
  lemma PercentageEuroToDollar(swap: SwapCalculator, pairs: Json, parse: string -> Option<real>, rate: real, usd: real)
    requires SideCurrency(pairs, "from") == Ok(Str("EUR")) && SideCurrency(pairs, "to") == Ok(Str("USD"))
    requires swap.ExchangeRate() == Some(rate) && RateOf(swap.converter.fiatPrices, "USD", parse) == Ok(usd)
    ensures swap.CalculatePercentage(pairs, parse) == Ok(100.0 * rate - 100.0 * usd)
  {
    DollarIsNotEuro();
    assert IsRelevantPair(Str("EUR"), Str("USD"));
    ConvertFromEuro(swap.converter, 100.0, "USD", parse, usd);
    assert swap.PounderedAmount(pairs, parse) == swap.converter.Convert(100.0, "EUR", "USD", parse);
    PercentageOfPoundered(swap, pairs, parse, rate, 100.0 * usd);
  }

  /** For USD to EUR the gain is `100 * exchangeRate - 100 / USD rate`. */
  lemma PercentageDollarToEuro(swap: SwapCalculator, pairs: Json, parse: string -> Option<real>, rate: real, usd: real)
    requires SideCurrency(pairs, "from") == Ok(Str("USD")) && SideCurrency(pairs, "to") == Ok(Str("EUR"))
    requires swap.ExchangeRate() == Some(rate) && RateOf(swap.converter.fiatPrices, "USD", parse) == Ok(usd)
    requires usd != 0.0
    ensures swap.CalculatePercentage(pairs, parse) == Ok(100.0 * rate - 100.0 / usd)
  {
    DollarIsNotEuro();
    assert IsRelevantPair(Str("USD"), Str("EUR"));
    assert swap.PounderedAmount(pairs, parse) == swap.converter.Convert(100.0, "USD", "EUR", parse);
    ConvertToEuro(swap.converter, 100.0, "USD", parse, usd);
    PercentageOfPoundered(swap, pairs, parse, rate, 100.0 / usd);
  }

  /** For USD to EUR a zero USD rate makes the division raise. */
  lemma ZeroDollarRateRaises(swap: SwapCalculator, pairs: Json, parse: string -> Option<real>)
    requires SideCurrency(pairs, "from") == Ok(Str("USD")) && SideCurrency(pairs, "to") == Ok(Str("EUR"))
    requires RateOf(swap.converter.fiatPrices, "USD", parse) == Ok(0.0)
    ensures swap.CalculatePercentage(pairs, parse).Raised?
  {
    DollarIsNotEuro();
    assert IsRelevantPair(Str("USD"), Str("EUR"));
    assert swap.PounderedAmount(pairs, parse) == swap.converter.Convert(100.0, "USD", "EUR", parse);
    ConvertRaises(swap.converter, 100.0, "USD", "EUR", parse);
  }

  /** A swap EUR to USD at rate 1.02 while one euro buys 1.1 dollars loses
      8 percent. */
  lemma PercentageExample(parse: string -> Option<real>)
    ensures var pairs := Obj([("from", Obj([("currency", Str("EUR"))])), ("to", Obj([("currency", Str("USD"))]))]);
            var swap := SwapCalculator(Obj([("exchangeRate", Num(1.02))]), CurrencyConverter(Obj([("USD", Num(1.1))])));
            swap.CalculatePercentage(pairs, parse) == Ok(-8.0)
  {
    var pairs := Obj([("from", Obj([("currency", Str("EUR"))])), ("to", Obj([("currency", Str("USD"))]))]);
    var prices := Obj([("USD", Num(1.1))]);
    var swap := SwapCalculator(Obj([("exchangeRate", Num(1.02))]), CurrencyConverter(prices));
    assert Index(pairs, "from") == Ok(Obj([("currency", Str("EUR"))]));
    assert Index(pairs, "to") == Ok(Obj([("currency", Str("USD"))]));
    assert SideCurrency(pairs, "from") == Ok(Str("EUR"));
    assert SideCurrency(pairs, "to") == Ok(Str("USD"));
    assert Index(prices, "USD") == Ok(Num(1.1));
    assert swap.ExchangeRate() == Some(1.02) by {
      assert Index(swap.swapConfig, "exchangeRate") == Ok(Num(1.02));
    }
    PercentageEuroToDollar(swap, pairs, parse, 1.02, 1.1);
  }
}
