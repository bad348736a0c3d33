/** The valuation of a processed wallet (`wallet_value` and
    `_calculate_chain_values` of the ingestion API).  A wallet maps keys
    `chain:address:currency` to amounts; keys are classified by their text
    alone: the text before the first ':' names the chain, the last three
    characters name the currency. */
module Valuation {
  import opened Wrappers
  import opened Dicts
  import opened Json
  import Text
  import opened Numeric
  import opened Conversion

  /** The chains that are valued, in the order they are visited. */
  const Chains: seq<string> := ["137", "solana"]

  /** `key.split(":")[0] == chain and key[-3:] == currency`. */
  predicate Matches(key: string, chain: string, currency: string) {
    Text.FirstSegment(key) == chain && Text.LastThree(key) == currency
  }

  /** `sum(wallet[i] for i in wallet if ...)`. */
  function SumWhere(wallet: Dict<real>, chain: string, currency: string): real {
    if wallet == [] then 0.0
    else (if Matches(wallet[0].0, chain, currency) then wallet[0].1 else 0.0) + SumWhere(wallet[1..], chain, currency)
  }

  /** The rounded `{"EUR": ..., "USD": ..., "total": ...}` of one chain. */
  datatype ChainValue = ChainValue(eur: real, usd: real, total: real)

  /** `{"by_chain": {...}, "total": ...}`. */
  datatype Valuation = Valuation(byChain: Dict<ChainValue>, total: real)

  /** `_calculate_chain_values(wallet, chain)`: the euro and dollar sums, and
      their total in dollars, each rounded to six places. */
  function ChainValues(wallet: Dict<real>, chain: string, converter: CurrencyConverter, parse: string -> Option<real>): Result<ChainValue> {
    var eurSum := SumWhere(wallet, chain, "EUR");
    var usdSum := SumWhere(wallet, chain, "USD");
    var eurInUsd :- converter.Convert(eurSum, "EUR", "USD", parse);
    Ok(ChainValue(Round6(eurSum), Round6(usdSum), Round6(usdSum + eurInUsd)))
  }

  /** `wallet_value(wallet)`: both chains, then the rounded sum of their totals. */
  function Valuate(wallet: Dict<real>, converter: CurrencyConverter, parse: string -> Option<real>): Result<Valuation> {
    var polygon :- ChainValues(wallet, "137", converter, parse);
    var solana :- ChainValues(wallet, "solana", converter, parse);
    Ok(Valuation([("137", polygon), ("solana", solana)], Round6(0.0 + polygon.total + solana.total)))
  }

  /** The dollar rate `float(fiat_prices["USD"])`, which every valuation needs. */
  function UsdRate(converter: CurrencyConverter, parse: string -> Option<real>): Result<real> {
    RateOf(converter.fiatPrices, "USD", parse)
  }

  /** A chain's values can be computed exactly when the dollar rate is
      there and is a number. */
  lemma ChainValuesNeedDollarRate(wallet: Dict<real>, chain: string, converter: CurrencyConverter, parse: string -> Option<real>)
    ensures ChainValues(wallet, chain, converter, parse).Ok? <==> UsdRate(converter, parse).Ok?
  {
    ConvertRaises(converter, SumWhere(wallet, chain, "EUR"), "EUR", "USD", parse);
  }

  /** A chain's values: the euro sum, the dollar sum, and the dollar sum plus
      the euro sum converted to dollars (by `ConvertFromEuro`, the euro sum
      times the dollar rate), each rounded.  The conversion happens even when
      the euro sum is zero, so a missing dollar rate always raises. */
  lemma ChainValuesMeaning(wallet: Dict<real>, chain: string, converter: CurrencyConverter, parse: string -> Option<real>)
    ensures ChainValues(wallet, chain, converter, parse).Ok? <==> UsdRate(converter, parse).Ok?
    ensures UsdRate(converter, parse).Ok? ==>
              && converter.Convert(SumWhere(wallet, chain, "EUR"), "EUR", "USD", parse).Ok?
              && ChainValues(wallet, chain, converter, parse) ==
                   Ok(ChainValue(Round6(SumWhere(wallet, chain, "EUR")), Round6(SumWhere(wallet, chain, "USD")),
                                 Round6(SumWhere(wallet, chain, "USD") +
                                        converter.Convert(SumWhere(wallet, chain, "EUR"), "EUR", "USD", parse).value)))
  {
    var eurSum, usdSum := SumWhere(wallet, chain, "EUR"), SumWhere(wallet, chain, "USD");
    ConvertRaises(converter, eurSum, "EUR", "USD", parse);
    var eurInUsd := converter.Convert(eurSum, "EUR", "USD", parse);
    if eurInUsd.Ok? {
      assert ChainValues(wallet, chain, converter, parse) ==
               Ok(ChainValue(Round6(eurSum), Round6(usdSum), Round6(usdSum + eurInUsd.value)));
    }
  }

  /** The valuation has exactly the chains "137" and "solana", and its total
      is the rounded sum of their totals; it raises exactly when the dollar
      rate is missing or not a number. */
  lemma ValuationShape(wallet: Dict<real>, converter: CurrencyConverter, parse: string -> Option<real>)
    ensures Valuate(wallet, converter, parse).Ok? <==> UsdRate(converter, parse).Ok?
    ensures Valuate(wallet, converter, parse).Ok? ==>
              var v := Valuate(wallet, converter, parse).value;
              && Keys(v.byChain) == Chains
              && DistinctKeys(v.byChain)
              && v.total == Round6(v.byChain[0].1.total + v.byChain[1].1.total)
  {
    ChainValuesNeedDollarRate(wallet, "137", converter, parse);
    ChainValuesNeedDollarRate(wallet, "solana", converter, parse);
    if Valuate(wallet, converter, parse).Ok? {
      var polygon, solana := ValuateParts(wallet, converter, parse);
      var v := Valuate(wallet, converter, parse).value;
      assert Keys(v.byChain) == [v.byChain[0].0, v.byChain[1].0];
    }
  }

  /** The two chain values a valuation is made of. */
  lemma ValuateParts(wallet: Dict<real>, converter: CurrencyConverter, parse: string -> Option<real>)
    returns (polygon: ChainValue, solana: ChainValue)
    requires Valuate(wallet, converter, parse).Ok?
    ensures ChainValues(wallet, "137", converter, parse) == Ok(polygon)
    ensures ChainValues(wallet, "solana", converter, parse) == Ok(solana)
    ensures Valuate(wallet, converter, parse).value ==
              Valuation([("137", polygon), ("solana", solana)], Round6(polygon.total + solana.total))
  {
    polygon := ChainValues(wallet, "137", converter, parse).value;
    solana := ChainValues(wallet, "solana", converter, parse).value;
    assert 0.0 + polygon.total + solana.total == polygon.total + solana.total;
  }

  /** An entry adds to a chain's sum exactly when it matches. */
  lemma {:induction false} SumWhereAppend(wallet: Dict<real>, key: string, amount: real, chain: string, currency: string)
    ensures SumWhere(wallet + [(key, amount)], chain, currency) ==
              SumWhere(wallet, chain, currency) + (if Matches(key, chain, currency) then amount else 0.0)
  {
    if wallet != [] {
      assert (wallet + [(key, amount)])[1..] == wallet[1..] + [(key, amount)];
      SumWhereAppend(wallet[1..], key, amount, chain, currency);
    }
  }

  /** Assigning a key that does not match changes no sum. */
  lemma {:induction false} SumWherePutOther(wallet: Dict<real>, key: string, amount: real, chain: string, currency: string)
    requires !Matches(key, chain, currency)
    ensures SumWhere(Put(wallet, key, amount), chain, currency) == SumWhere(wallet, chain, currency)
  {
    if wallet == [] {
    } else if wallet[0].0 == key {
      assert Put(wallet, key, amount)[1..] == wallet[1..];
    } else {
      SumWherePutOther(wallet[1..], key, amount, chain, currency);
      assert Put(wallet, key, amount)[1..] == Put(wallet[1..], key, amount);
    }
  }

  /** A wallet without a matching key sums to zero. */
  lemma {:induction false} SumWhereNoMatch(wallet: Dict<real>, chain: string, currency: string)
    requires forall i :: 0 <= i < |wallet| ==> !Matches(wallet[i].0, chain, currency)
    ensures SumWhere(wallet, chain, currency) == 0.0
  {
    if wallet != [] {
      SumWhereNoMatch(wallet[1..], chain, currency);
    }
  }

  /** An empty wallet is worth nothing on either chain, provided the dollar
      rate is there. */
  lemma EmptyWalletIsZero(converter: CurrencyConverter, parse: string -> Option<real>)
    requires UsdRate(converter, parse).Ok?
    ensures Valuate([], converter, parse) ==
              Ok(Valuation([("137", ChainValue(0.0, 0.0, 0.0)), ("solana", ChainValue(0.0, 0.0, 0.0))], 0.0))
  {
    Round6Integer(0);
    ChainValuesMeaning([], "137", converter, parse);
    ChainValuesMeaning([], "solana", converter, parse);
  }

  /** An entry not matching a chain in either currency leaves that chain's
      values as they were. */
  lemma UnvaluedEntryKeepsChain(wallet: Dict<real>, key: string, amount: real, chain: string,
                                converter: CurrencyConverter, parse: string -> Option<real>)
    requires !Matches(key, chain, "EUR") && !Matches(key, chain, "USD")
    ensures ChainValues(Put(wallet, key, amount), chain, converter, parse) == ChainValues(wallet, chain, converter, parse)
  {
    SumWherePutOther(wallet, key, amount, chain, "EUR");
    SumWherePutOther(wallet, key, amount, chain, "USD");
  }

  /** An entry whose key names neither valued chain, or whose currency is
      neither EUR nor USD, takes no part in the valuation: putting it into
      the wallet leaves the whole valuation as it was. */
  lemma UnvaluedEntryKeepsValuation(wallet: Dict<real>, key: string, amount: real,
                                    converter: CurrencyConverter, parse: string -> Option<real>)
    requires Text.FirstSegment(key) !in Chains || (Text.LastThree(key) != "EUR" && Text.LastThree(key) != "USD")
    ensures Valuate(Put(wallet, key, amount), converter, parse) == Valuate(wallet, converter, parse)
  {
    assert !Matches(key, "137", "EUR") && !Matches(key, "137", "USD");
    assert !Matches(key, "solana", "EUR") && !Matches(key, "solana", "USD");
    UnvaluedEntryKeepsChain(wallet, key, amount, "137", converter, parse);
    UnvaluedEntryKeepsChain(wallet, key, amount, "solana", converter, parse);
    SameChainsSameValuation(Put(wallet, key, amount), wallet, converter, parse);
  }

  /** Two wallets whose chains are valued alike are valued alike. */
  lemma SameChainsSameValuation(w1: Dict<real>, w2: Dict<real>, converter: CurrencyConverter, parse: string -> Option<real>)
    requires ChainValues(w1, "137", converter, parse) == ChainValues(w2, "137", converter, parse)
    requires ChainValues(w1, "solana", converter, parse) == ChainValues(w2, "solana", converter, parse)
    ensures Valuate(w1, converter, parse) == Valuate(w2, converter, parse)
  {
  }
}
