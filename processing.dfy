/** The reshaping of a validated payload into the documents that are stored
    (TradeDataProcessor of the ingestion API): pair sides become
    `chain:token:currency` texts, cost lists become rounded dollar amounts,
    wallet entries become a dict keyed by `chain:address:currency`, and the
    wallet is valued with the fiat prices of its own trade. */
module Processing {
  import opened Wrappers
  import opened Dicts
  import opened Json
  import Text
  import opened Numeric
  import opened Conversion
  import opened Valuation

  // ---------------------------------------------------------------- costs

  /** `float(f'{float(cost["amountUsd"]):.6f}')`. */
  function CostAmount(cost: Json, parse: string -> Option<real>): Result<real> {
    var amount :- Index(cost, "amountUsd");
    var f :- FloatOf(amount, parse);
    Ok(Round6(f))
  }

  /** The list comprehension over a cost list: one rounded amount per cost,
      in order, raising as soon as one cost has no usable amount. */
  function CostAmounts(costs: seq<Json>, parse: string -> Option<real>): (r: Result<seq<real>>)
    ensures r.Ok? <==> forall i :: 0 <= i < |costs| ==> CostAmount(costs[i], parse).Ok?
    ensures r.Ok? ==> |r.value| == |costs|
    ensures r.Ok? ==> forall i :: 0 <= i < |costs| ==> r.value[i] == CostAmount(costs[i], parse).value
  {
    if costs == [] then Ok([])
    else
      match CostAmount(costs[0], parse)
      case Raised => Raised
      case Ok(first) =>
        match CostAmounts(costs[1..], parse)
        case Raised => Raised
        case Ok(rest) =>
          assert forall i :: 1 <= i < |costs| ==> costs[1..][i - 1] == costs[i];
          Ok([first] + rest)
  }

  /** Amounts as JSON numbers. */
  function Numbers(xs: seq<real>): (r: Json)
    ensures r.Arr? && |r.items| == |xs|
    ensures forall i :: 0 <= i < |xs| ==> r.items[i] == Num(xs[i])
  {
    Arr(seq(|xs|, i requires 0 <= i < |xs| => Num(xs[i])))
  }

  /** `swap_config[key] = [float(f'{float(cost["amountUsd"]):.6f}') for cost in swap_config[key]]`. */
  function RoundCosts(config: Json, key: string, parse: string -> Option<real>): Result<Json> {
    var costs :- Index(config, key);
    var items :- Elements(costs);
    var amounts :- CostAmounts(items, parse);
    Ok(Obj(Put(config.fields, key, Numbers(amounts))))
  }

  /** `process_trade_config`: the gas costs, then the fee costs. */
  function ProcessTradeConfig(config: Json, parse: string -> Option<real>): Result<Json> {
    var withGas :- RoundCosts(config, "gasCosts", parse);
    RoundCosts(withGas, "feeCosts", parse)
  }

  /** `r` holds under `key` the rounded amounts of the costs `config` holds
      there, one per cost and in order. */
  predicate CostsRounded(config: Json, r: Json, key: string, parse: string -> Option<real>)
    requires r.Obj?
  {
    && Index(config, key).Ok? && Elements(Index(config, key).value).Ok?
    && CostAmounts(Elements(Index(config, key).value).value, parse).Ok?
    && Get(r.fields, key) == Some(Numbers(CostAmounts(Elements(Index(config, key).value).value, parse).value))
  }

  /** Rounding one cost list keeps every key where it is, replaces that list
      by the rounded amounts of its costs, in order, and touches no other key. */
  lemma RoundCostsMeaning(config: Json, key: string, parse: string -> Option<real>, k: string)
    requires RoundCosts(config, key, parse).Ok?
    ensures var r := RoundCosts(config, key, parse).value;
            && r.Obj? && config.Obj?
            && Keys(r.fields) == Keys(config.fields)
            && CostsRounded(config, r, key, parse)
            && (k != key ==> Get(r.fields, k) == Get(config.fields, k))
  {
    assert Index(config, key).Ok?;
    var v := Numbers(CostAmounts(Elements(Index(config, key).value).value, parse).value);
    PutGet(config.fields, key, v, k);
    PutGet(config.fields, key, v, key);
  }

  /** After `process_trade_config` both cost lists hold one rounded amount per
      original cost, in the original order; the keys are those of the
      original configuration, and every other entry is as it was. */
  lemma ProcessTradeConfigMeaning(config: Json, parse: string -> Option<real>, k: string)
    requires ProcessTradeConfig(config, parse).Ok?
    ensures var r := ProcessTradeConfig(config, parse).value;
            && r.Obj? && config.Obj?
            && Keys(r.fields) == Keys(config.fields)
            && CostsRounded(config, r, "gasCosts", parse)
            && CostsRounded(config, r, "feeCosts", parse)
            && (k != "gasCosts" && k != "feeCosts" ==> Get(r.fields, k) == Get(config.fields, k))
  {
    var withGas := RoundCosts(config, "gasCosts", parse).value;
    var r := RoundCosts(withGas, "feeCosts", parse).value;
    RoundCostsMeaning(config, "gasCosts", parse, k);
    RoundCostsMeaning(config, "gasCosts", parse, "feeCosts");
    RoundCostsMeaning(withGas, "feeCosts", parse, k);
    RoundCostsMeaning(withGas, "feeCosts", parse, "gasCosts");
    assert Index(withGas, "feeCosts") == Index(config, "feeCosts");
    assert Get(r.fields, "gasCosts") == Get(withGas.fields, "gasCosts");
  }

  // ----------------------------------------------------------------- pair

  /** `f'{x["chain"]}:{x["token"]}:{x["currency"]}'` for `x = pair[side]`. */
  function SideText(pair: Json, side: string): Result<string> {
    var s :- Index(pair, side);
    Describe(s)
  }

  /** `f'{s["chain"]}:{s["token"]}:{s["currency"]}'`. */
  function Describe(s: Json): Result<string> {
    var chain :- Index(s, "chain");
    var token :- Index(s, "token");
    var currency :- Index(s, "currency");
    Ok(Display(chain) + ":" + Display(token) + ":" + Display(currency))
  }

  /** `process_trade_pair`: "from" is rewritten first, then "to" is read
      from the partly rewritten pair. */
  function ProcessTradePair(pair: Json): Result<Json> {
    var fromText :- SideText(pair, "from");
    var withFrom := Obj(Put(pair.fields, "from", Str(fromText)));
    var toText :- SideText(withFrom, "to");
    Ok(Obj(Put(withFrom.fields, "to", Str(toText))))
  }

  /** The rewritten pair has the keys of the original; "from" and "to" hold
      the texts of the original sides, and nothing else changes. */
  lemma ProcessTradePairMeaning(pair: Json, k: string)
    requires ProcessTradePair(pair).Ok?
    ensures var r := ProcessTradePair(pair).value;
            && r.Obj? && pair.Obj?
            && Keys(r.fields) == Keys(pair.fields)
            && SideText(pair, "from").Ok? && SideText(pair, "to").Ok?
            && Get(r.fields, "from") == Some(Str(SideText(pair, "from").value))
            && Get(r.fields, "to") == Some(Str(SideText(pair, "to").value))
            && (k != "from" && k != "to" ==> Get(r.fields, k) == Get(pair.fields, k))
  {
    var withFrom := Obj(Put(pair.fields, "from", Str(SideText(pair, "from").value)));
    PutGet(pair.fields, "from", Str(SideText(pair, "from").value), "to");
    assert Index(withFrom, "to") == Index(pair, "to");
    assert SideText(withFrom, "to") == SideText(pair, "to");
    var toText := SideText(withFrom, "to").value;
    PutGet(pair.fields, "from", Str(SideText(pair, "from").value), k);
    PutGet(pair.fields, "from", Str(SideText(pair, "from").value), "from");
    PutGet(withFrom.fields, "to", Str(toText), k);
    PutGet(withFrom.fields, "to", Str(toText), "from");
    PutGet(withFrom.fields, "to", Str(toText), "to");
  }

  /** Once the pair is rewritten its sides are texts, so the gain can no
      longer be computed from it: the rentability must be, and is, computed
      from the pair as received. */
  lemma RewrittenPairHasNoCurrency(pair: Json, swap: SwapCalculator, parse: string -> Option<real>)
    requires ProcessTradePair(pair).Ok?
    ensures SideCurrency(ProcessTradePair(pair).value, "from").Raised?
    ensures swap.CalculatePercentage(ProcessTradePair(pair).value, parse).Raised?
  {
    ProcessTradePairMeaning(pair, "from");
  }

  // --------------------------------------------------------------- wallet

  /** `_generate_wallet_key(entry)`: `chain:address:currency`. */
  function WalletKey(entry: Json): Result<string> {
    var chain :- Index(entry, "chain");
    var address :- Index(entry, "address");
    var currency :- Index(entry, "currency");
    Ok(Display(chain) + ":" + Display(address) + ":" + Display(currency))
  }

  /** `float(f'{entry["amount"]:.6f}')`: formatting with `.6f` accepts ints,
      floats and bools only. */
  function EntryAmount(entry: Json): Result<real> {
    var amount :- Index(entry, "amount");
    if NumberOf(amount).Some? then Ok(Round6(NumberOf(amount).value)) else Raised
  }

  /** The key and the rounded amount of one entry. */
  function EntryPair(entry: Json): Result<(string, real)> {
    var key :- WalletKey(entry);
    var amount :- EntryAmount(entry);
    Ok((key, amount))
  }

  /** How one entry is read; `Reader()` is `EntryPair`, passed around as a
      value so that facts about whole lists stay apart from the reading of
      one entry. */
  type EntryReader = Json -> Result<(string, real)>

  function Reader(): EntryReader {
    entry => EntryPair(entry)
  }

  /** The pairs of the entries, one per entry and in order; raises when any
      entry raises. */
  function EntryPairs(entries: seq<Json>, read: EntryReader): (r: Result<seq<(string, real)>>)
    ensures r.Ok? <==> forall i :: 0 <= i < |entries| ==> read(entries[i]).Ok?
    ensures r.Ok? ==> |r.value| == |entries|
    ensures r.Ok? ==> forall i :: 0 <= i < |entries| ==> r.value[i] == read(entries[i]).value
    decreases |entries|
  {
    if entries == [] then Ok([])
    else
      match read(entries[0])
      case Raised => Raised
      case Ok(p) =>
        match EntryPairs(entries[1..], read)
        case Raised => Raised
        case Ok(pairs) => Ok([p] + pairs)
  }

  /** `_process_entries(wallet_data)`: every entry assigned in turn. */
  function ProcessedEntries(entries: seq<Json>): Result<Dict<real>> {
    var pairs :- EntryPairs(entries, Reader());
    Ok(PutAll([], pairs))
  }

  /** `_process_entries` over whatever `for entry in wallet_data` visits. */
  function EntriesOf(walletData: Json): Result<Dict<real>> {
    var entries :- Elements(walletData);
    ProcessedEntries(entries)
  }

  /** The loop of `_process_entries` from entry `i` on, starting from the
      dict `d`: each entry is read and assigned in turn. */
  function AssignFrom(d: Dict<real>, entries: seq<Json>, i: nat, read: EntryReader): Result<Dict<real>>
    requires i <= |entries|
    decreases |entries| - i
  {
    if i == |entries| then Ok(d)
    else
      match read(entries[i])
      case Raised => Raised
      case Ok(p) => AssignFrom(Put(d, p.0, p.1), entries, i + 1, read)
  }

  /** Assigning the entries one by one is assigning all their pairs at
      once, and raises exactly when one of them does. */
  lemma {:induction false} AssignFromPairs(d: Dict<real>, entries: seq<Json>, i: nat, read: EntryReader)
    requires i <= |entries|
    ensures EntryPairs(entries[i..], read).Raised? ==> AssignFrom(d, entries, i, read).Raised?
    ensures EntryPairs(entries[i..], read).Ok? ==>
              AssignFrom(d, entries, i, read) == Ok(PutAll(d, EntryPairs(entries[i..], read).value))
    decreases |entries| - i
  {
    if i == |entries| {
      assert entries[i..] == [];
    } else {
      assert entries[i..][0] == entries[i] && entries[i..][1..] == entries[i + 1..];
      if read(entries[i]).Ok? {
        var p := read(entries[i]).value;
        AssignFromPairs(Put(d, p.0, p.1), entries, i + 1, read);
        if EntryPairs(entries[i + 1..], read).Ok? {
          var rest := EntryPairs(entries[i + 1..], read).value;
          assert EntryPairs(entries[i..], read) == Ok([p] + rest);
          assert ([p] + rest)[0] == p && ([p] + rest)[1..] == rest;
        }
      }
    }
  }

  /** The processed wallet has one key per distinct entry key, and a key
      holds the rounded amount of the last entry that carries it: a later
      duplicate overwrites an earlier one. */
  lemma ProcessedEntriesLaterWins(entries: seq<Json>, j: nat)
    requires ProcessedEntries(entries).Ok?
    requires j < |entries|
    requires forall i :: j < i < |entries| ==> EntryPair(entries[i]).value.0 != EntryPair(entries[j]).value.0
    ensures Get(ProcessedEntries(entries).value, EntryPair(entries[j]).value.0) == Some(EntryPair(entries[j]).value.1)
  {
    var pairs := EntryPairs(entries, Reader()).value;
    LastValueAt(pairs, pairs[j].0, j);
    PutAllGet([], pairs, pairs[j].0);
  }

  /** Every key of the processed wallet comes from an entry, the keys are
      distinct, and there are no more of them than entries. */
  lemma ProcessedEntriesKeys(entries: seq<Json>, k: string)
    requires ProcessedEntries(entries).Ok?
    ensures DistinctKeys(ProcessedEntries(entries).value)
    ensures |ProcessedEntries(entries).value| <= |entries|
    ensures k in Keys(ProcessedEntries(entries).value) <==> exists i :: 0 <= i < |entries| && EntryPair(entries[i]).value.0 == k
  {
    var pairs := EntryPairs(entries, Reader()).value;
    PutAllSize([], pairs);
    PutAllKeys([], pairs, k);
    if k in Keys(pairs) {
      var i :| 0 <= i < |pairs| && Keys(pairs)[i] == k;
      assert EntryPair(entries[i]).value.0 == k;
    }
    if exists i :: 0 <= i < |entries| && EntryPair(entries[i]).value.0 == k {
      var i :| 0 <= i < |entries| && EntryPair(entries[i]).value.0 == k;
      assert Keys(pairs)[i] == k;
    }
  }

  /** An entry whose chain is a text without ':' and whose currency is a
      text of at least three characters is classified by that chain and by
      the currency's last three characters. */
  lemma WalletKeyClassification(entry: Json, chain: string, currency: string)
    requires WalletKey(entry).Ok?
    requires Index(entry, "chain") == Ok(Str(chain)) && ':' !in chain
    requires Index(entry, "currency") == Ok(Str(currency)) && |currency| >= 3
    ensures Text.FirstSegment(WalletKey(entry).value) == chain
    ensures Text.LastThree(WalletKey(entry).value) == Text.LastThree(currency)
    ensures forall c, cur :: Matches(WalletKey(entry).value, c, cur) <==> c == chain && cur == Text.LastThree(currency)
  {
    var address := Display(Index(entry, "address").value);
    var key := WalletKey(entry).value;
    assert key == chain + ":" + (address + ":" + currency);
    Text.FirstSegmentJoined(chain, address + ":" + currency);
    assert key == (chain + ":" + address + ":") + currency;
    Text.LastThreeOfTail(chain + ":" + address + ":", currency);
  }

  // ------------------------------------------------------------ documents

  /** `{"stable_coins": ..., "value": ...}`, the part of a wallet document
      its id is computed from. */
  datatype WalletData = WalletData(stableCoins: Dict<real>, value: Valuation)

  /** `_construct_wallet_return_data`: the data, the processing time and
      `_id = md5(str(data))`. */
  datatype WalletDocument = WalletDocument(id: string, data: WalletData, timestamp: int)

  /** `{"gas": ..., "fee": ..., "total": ...}`. */
  datatype Cost = Cost(gas: Json, fee: Json, total: Json)

  /** `{"rate": ..., "from": ..., "to": ...}`. */
  datatype Exchange = Exchange(rate: real, from: Json, to: Json)

  /** `{"USD": 1.00, "EUR": ..., "SOL": ..., "MAT": ...}`. */
  datatype Price = Price(usd: real, eur: Json, sol: Json, mat: Json)

  /** The dict `process_trade_all` returns. */
  datatype TradeDocument = TradeDocument(cost: Cost, exchange: Exchange, price: Price, rentability: real, timestamp: int)

  /** What `format_trade_document` leaves under "trade" and "wallet". */
  datatype ProcessedPayload = ProcessedPayload(trade: TradeDocument, wallet: WalletDocument)

  /** `process_wallet_data(wallet_data)`: the entries, their valuation and
      the document built from them.  `digest` stands for
      `hashlib.md5(str(data).encode()).hexdigest()`. */
  function WalletDocumentOf(walletData: Json, converter: CurrencyConverter, timestamp: int,
                            parse: string -> Option<real>, digest: WalletData -> string): Result<WalletDocument>
  {
    var coins :- EntriesOf(walletData);
    var value :- Valuate(coins, converter, parse);
    var data := WalletData(coins, value);
    Ok(WalletDocument(digest(data), data, timestamp))
  }

  /** The id of a wallet document depends on its data only: processing the
      same wallet at two different times gives the same id. */
  lemma WalletIdIgnoresTime(walletData: Json, converter: CurrencyConverter, t1: int, t2: int,
                            parse: string -> Option<real>, digest: WalletData -> string)
    ensures WalletDocumentOf(walletData, converter, t1, parse, digest).Ok? <==>
            WalletDocumentOf(walletData, converter, t2, parse, digest).Ok?
    ensures WalletDocumentOf(walletData, converter, t1, parse, digest).Ok? ==>
              && WalletDocumentOf(walletData, converter, t1, parse, digest).value.id ==
                 WalletDocumentOf(walletData, converter, t2, parse, digest).value.id
              && WalletDocumentOf(walletData, converter, t1, parse, digest).value.timestamp == t1
  {
  }

  /** `float(f'{x:.6f}')` for a value that must be a number. */
  function RoundNumber(x: Json): Result<real> {
    if NumberOf(x).Some? then Ok(Round6(NumberOf(x).value)) else Raised
  }

  /** `process_trade_all(trade_data, renta)`, on the trade whose
      configuration and pair are already rewritten: the "cost", "exchange"
      and "price" parts, the rentability and the processing time. */
  function ProcessTradeAll(trade: Json, renta: real, timestamp: int): Result<TradeDocument> {
    var cost :- CostOf(trade);
    var exchange :- ExchangeOf(trade);
    var price :- PriceOf(trade);
    Ok(TradeDocument(cost, exchange, price, renta, timestamp))
  }

  /** `{"gas": ..., "fee": ..., "total": ...}` from the configuration. */
  function CostOf(trade: Json): Result<Cost> {
    var config :- Index(trade, "swapConfig");
    var gas :- Index(config, "gasCosts");
    var fee :- Index(config, "feeCosts");
    var total :- Index(config, "transactionCost");
    Ok(Cost(gas, fee, total))
  }

  /** `{"rate": ..., "from": ..., "to": ...}`: the rounded exchange rate
      and the two sides of the pair. */
  function ExchangeOf(trade: Json): Result<Exchange> {
    var config :- Index(trade, "swapConfig");
    var rateValue :- Index(config, "exchangeRate");
    var rate :- RoundNumber(rateValue);
    var pair :- Index(trade, "pair");
    var from :- Index(pair, "from");
    var to :- Index(pair, "to");
    Ok(Exchange(rate, from, to))
  }

  /** `{"USD": 1.00, "EUR": fiatPrices["USD"], "SOL": ..., "MAT": ...}`. */
  function PriceOf(trade: Json): Result<Price> {
    var config :- Index(trade, "swapConfig");
    var fiat :- Index(config, "fiatPrices");
    var eur :- Index(fiat, "USD");
    var sol :- Index(trade, "solanaPrice");
    var mat :- Index(trade, "maticPrice");
    Ok(Price(1.0, eur, sol, mat))
  }

  /** The "cost" part: the configuration's cost entries as they are. */
  lemma CostOfFields(trade: Json, config: Json)
    requires CostOf(trade).Ok? && Index(trade, "swapConfig") == Ok(config)
    ensures Index(config, "gasCosts") == Ok(CostOf(trade).value.gas)
    ensures Index(config, "feeCosts") == Ok(CostOf(trade).value.fee)
    ensures Index(config, "transactionCost") == Ok(CostOf(trade).value.total)
  {
  }

  /** The "exchange" part: the rounded rate and the two sides of the pair. */
  lemma ExchangeOfFields(trade: Json, config: Json, pair: Json)
    requires ExchangeOf(trade).Ok? && Index(trade, "swapConfig") == Ok(config) && Index(trade, "pair") == Ok(pair)
    ensures Index(config, "exchangeRate").Ok? && RoundNumber(Index(config, "exchangeRate").value) == Ok(ExchangeOf(trade).value.rate)
    ensures Index(pair, "from") == Ok(ExchangeOf(trade).value.from) && Index(pair, "to") == Ok(ExchangeOf(trade).value.to)
  {
  }

  /** The "price" part: the dollar at 1, the configuration's dollar rate
      under "EUR", and the trade's own SOL and MATIC prices. */
  lemma PriceOfFields(trade: Json, config: Json)
    requires PriceOf(trade).Ok? && Index(trade, "swapConfig") == Ok(config)
    ensures PriceOf(trade).value.usd == 1.0
    ensures Index(config, "fiatPrices").Ok? && Index(Index(config, "fiatPrices").value, "USD") == Ok(PriceOf(trade).value.eur)
    ensures Index(trade, "solanaPrice") == Ok(PriceOf(trade).value.sol)
    ensures Index(trade, "maticPrice") == Ok(PriceOf(trade).value.mat)
  {
  }

  /** Where the parts of the trade document come from. */
  lemma TradeDocumentFields(trade: Json, renta: real, timestamp: int, config: Json, pair: Json)
    requires ProcessTradeAll(trade, renta, timestamp).Ok?
    requires Index(trade, "swapConfig") == Ok(config) && Index(trade, "pair") == Ok(pair)
    ensures var doc := ProcessTradeAll(trade, renta, timestamp).value;
            && Index(config, "gasCosts") == Ok(doc.cost.gas) && Index(config, "feeCosts") == Ok(doc.cost.fee)
            && Index(config, "transactionCost") == Ok(doc.cost.total)
            && Index(config, "exchangeRate").Ok? && RoundNumber(Index(config, "exchangeRate").value) == Ok(doc.exchange.rate)
            && Index(pair, "from") == Ok(doc.exchange.from) && Index(pair, "to") == Ok(doc.exchange.to)
            && Index(config, "fiatPrices").Ok? && Index(Index(config, "fiatPrices").value, "USD") == Ok(doc.price.eur)
            && Index(trade, "solanaPrice") == Ok(doc.price.sol) && Index(trade, "maticPrice") == Ok(doc.price.mat)
            && doc.price.usd == 1.0 && doc.rentability == renta && doc.timestamp == timestamp
  {
    CostOfFields(trade, config);
    ExchangeOfFields(trade, config, pair);
    PriceOfFields(trade, config);
  }

  /** `trade_data["trade"]["swapConfig"]["fiatPrices"]`, the prices the
      converter of a payload is built from. */
  function FiatPricesOf(payload: Json): Result<Json> {
    var config :- ConfigOf(payload);
    Index(config, "fiatPrices")
  }

  /** `trade_data["trade"]["swapConfig"]`. */
  function ConfigOf(payload: Json): Result<Json> {
    var trade :- Index(payload, "trade");
    Index(trade, "swapConfig")
  }

  /** The rounded gain of the trade of a payload, from its pair as received. */
  function Rentability(trade: Json, config: Json, fiat: Json, parse: string -> Option<real>): Result<real> {
    var pair :- Index(trade, "pair");
    var renta :- SwapCalculator(config, CurrencyConverter(fiat)).CalculatePercentage(pair, parse);
    Ok(Round6(renta))
  }

  /** The trade of a payload after `process_trade_config` and
      `process_trade_pair` have rewritten its configuration and its pair. */
  function RewrittenTrade(trade: Json, parse: string -> Option<real>): Result<Json> {
    var config :- Index(trade, "swapConfig");
    var newConfig :- ProcessTradeConfig(config, parse);
    var withConfig := Obj(Put(trade.fields, "swapConfig", newConfig));
    var pair :- Index(withConfig, "pair");
    var newPair :- ProcessTradePair(pair);
    Ok(Obj(Put(withConfig.fields, "pair", newPair)))
  }

  /** The rewritten trade holds the rewritten configuration and the
      rewritten pair. */
  lemma RewrittenTradeFields(trade: Json, config: Json, pair: Json, parse: string -> Option<real>)
    requires RewrittenTrade(trade, parse).Ok?
    requires Index(trade, "swapConfig") == Ok(config) && Index(trade, "pair") == Ok(pair)
    ensures ProcessTradeConfig(config, parse).Ok? && ProcessTradePair(pair).Ok?
    ensures Index(RewrittenTrade(trade, parse).value, "swapConfig") == ProcessTradeConfig(config, parse)
    ensures Index(RewrittenTrade(trade, parse).value, "pair") == ProcessTradePair(pair)
  {
    var newConfig := ProcessTradeConfig(config, parse).value;
    var withConfig := Obj(Put(trade.fields, "swapConfig", newConfig));
    PutGet(trade.fields, "swapConfig", newConfig, "pair");
    assert Index(withConfig, "pair") == Ok(pair);
    var newPair := ProcessTradePair(pair).value;
    assert RewrittenTrade(trade, parse).value == Obj(Put(withConfig.fields, "pair", newPair));
    PutGet(withConfig.fields, "pair", newPair, "pair");
    PutGet(withConfig.fields, "pair", newPair, "swapConfig");
    PutGet(trade.fields, "swapConfig", newConfig, "swapConfig");
  }

  /** The rewriting touches only the configuration and the pair: every other
      entry of the trade is as received. */
  lemma RewrittenTradeOther(trade: Json, parse: string -> Option<real>, k: string)
    requires RewrittenTrade(trade, parse).Ok?
    requires k != "swapConfig" && k != "pair"
    ensures Index(RewrittenTrade(trade, parse).value, k) == Index(trade, k)
  {
    var newConfig := ProcessTradeConfig(Index(trade, "swapConfig").value, parse).value;
    var withConfig := Obj(Put(trade.fields, "swapConfig", newConfig));
    var newPair := ProcessTradePair(Index(withConfig, "pair").value).value;
    assert RewrittenTrade(trade, parse).value == Obj(Put(withConfig.fields, "pair", newPair));
    PutGet(withConfig.fields, "pair", newPair, k);
    PutGet(trade.fields, "swapConfig", newConfig, k);
  }

  /** `format_trade_document(trade_data)`: first the trade, then the
      wallet; a payload raising in either part raises. */
  function FormattedPayload(payload: Json, timestamp: int, parse: string -> Option<real>,
                            digest: WalletData -> string): Result<ProcessedPayload>
  {
    var tradeDoc :- FormattedTrade(payload, timestamp, parse);
    var walletDoc :- FormattedWallet(payload, timestamp, parse, digest);
    Ok(ProcessedPayload(tradeDoc, walletDoc))
  }

  /** The trade part, in the order of its statements: the converter from the
      fiat prices, the rentability from the pair as received, then the
      rewriting of configuration and pair, and the trade document. */
  function FormattedTrade(payload: Json, timestamp: int, parse: string -> Option<real>): Result<TradeDocument> {
    var parts :- TradeParts(payload, parse);
    ProcessTradeAll(parts.0, parts.1, timestamp)
  }

  /** What the trade document is built from: the rewritten trade and its
      rounded rentability. */
  function TradeParts(payload: Json, parse: string -> Option<real>): Result<(Json, real)> {
    var trade :- Index(payload, "trade");
    var config :- Index(trade, "swapConfig");
    var fiat :- Index(config, "fiatPrices");
    var renta :- Rentability(trade, config, fiat, parse);
    var rewritten :- RewrittenTrade(trade, parse);
    Ok((rewritten, renta))
  }

  /** The wallet part: the payload's wallet, valued with the converter built
      from the same payload's fiat prices. */
  function FormattedWallet(payload: Json, timestamp: int, parse: string -> Option<real>,
                           digest: WalletData -> string): Result<WalletDocument>
  {
    var fiat :- FiatPricesOf(payload);
    var walletData :- Index(payload, "wallet");
    WalletDocumentOf(walletData, CurrencyConverter(fiat), timestamp, parse, digest)
  }

  /** The trade document of a formatted payload: the rentability of the
      pair as received, the side texts of that pair, the rounded cost lists,
      the configuration's total cost and rounded exchange rate, the dollar
      rate as the euro price, the trade's SOL and MATIC prices, and the
      processing time. */
  lemma FormattedTradeMeaning(payload: Json, timestamp: int, parse: string -> Option<real>,
                              trade: Json, config: Json, fiat: Json, pair: Json)
    requires FormattedTrade(payload, timestamp, parse).Ok?
    requires Index(payload, "trade") == Ok(trade) && Index(trade, "swapConfig") == Ok(config)
    requires Index(config, "fiatPrices") == Ok(fiat) && Index(trade, "pair") == Ok(pair)
    ensures var doc := FormattedTrade(payload, timestamp, parse).value;
            && SwapCalculator(config, CurrencyConverter(fiat)).CalculatePercentage(pair, parse).Ok?
            && doc.rentability == Round6(SwapCalculator(config, CurrencyConverter(fiat)).CalculatePercentage(pair, parse).value)
            && SideText(pair, "from").Ok? && doc.exchange.from == Str(SideText(pair, "from").value)
            && SideText(pair, "to").Ok? && doc.exchange.to == Str(SideText(pair, "to").value)
            && ProcessTradeConfig(config, parse).Ok?
            && Index(ProcessTradeConfig(config, parse).value, "gasCosts") == Ok(doc.cost.gas)
            && CostsRounded(config, ProcessTradeConfig(config, parse).value, "gasCosts", parse)
            && Index(ProcessTradeConfig(config, parse).value, "feeCosts") == Ok(doc.cost.fee)
            && CostsRounded(config, ProcessTradeConfig(config, parse).value, "feeCosts", parse)
            && Index(config, "transactionCost") == Ok(doc.cost.total)
            && Index(config, "exchangeRate").Ok? && RoundNumber(Index(config, "exchangeRate").value) == Ok(doc.exchange.rate)
            && Index(fiat, "USD") == Ok(doc.price.eur)
            && Index(trade, "solanaPrice") == Ok(doc.price.sol) && Index(trade, "maticPrice") == Ok(doc.price.mat)
            && doc.price.usd == 1.0
            && doc.timestamp == timestamp
  {
    assert TradeParts(payload, parse).Ok?;
    RewrittenTradeFields(trade, config, pair, parse);
    var newConfig := ProcessTradeConfig(config, parse).value;
    var newPair := ProcessTradePair(pair).value;
    var rewritten := RewrittenTrade(trade, parse).value;
    ProcessTradePairMeaning(pair, "from");
    ProcessTradeConfigMeaning(config, parse, "transactionCost");
    ProcessTradeConfigMeaning(config, parse, "fiatPrices");
    ProcessTradeConfigMeaning(config, parse, "exchangeRate");
    RewrittenTradeOther(trade, parse, "solanaPrice");
    RewrittenTradeOther(trade, parse, "maticPrice");
    var renta := Rentability(trade, config, fiat, parse).value;
    assert TradeParts(payload, parse) == Ok((rewritten, renta));
    assert FormattedTrade(payload, timestamp, parse) == ProcessTradeAll(rewritten, renta, timestamp);
    TradeDocumentFields(rewritten, renta, timestamp, newConfig, newPair);
  }

  /** The wallet document of a formatted payload is the payload's wallet
      processed at the same time and valued with the same trade's prices;
      its id is the digest of its data. */
  lemma FormattedWalletMeaning(payload: Json, timestamp: int, parse: string -> Option<real>, digest: WalletData -> string,
                               fiat: Json)
    requires FormattedWallet(payload, timestamp, parse, digest).Ok?
    requires FiatPricesOf(payload) == Ok(fiat)
    ensures var doc := FormattedWallet(payload, timestamp, parse, digest).value;
            && Index(payload, "wallet").Ok?
            && WalletDocumentOf(Index(payload, "wallet").value, CurrencyConverter(fiat), timestamp, parse, digest) == Ok(doc)
            && Valuate(doc.data.stableCoins, CurrencyConverter(fiat), parse) == Ok(doc.data.value)
            && doc.id == digest(doc.data)
            && doc.timestamp == timestamp
  {
  }

  /** Formatting the same payload at two times succeeds at both or at
      neither, and gives wallet documents with the same id. */
  lemma FormattedPayloadTimes(payload: Json, t1: int, t2: int, parse: string -> Option<real>, digest: WalletData -> string)
    ensures FormattedPayload(payload, t1, parse, digest).Ok? <==> FormattedPayload(payload, t2, parse, digest).Ok?
    ensures FormattedPayload(payload, t1, parse, digest).Ok? ==>
              FormattedPayload(payload, t1, parse, digest).value.wallet.id == FormattedPayload(payload, t2, parse, digest).value.wallet.id
  {
    TradeTimes(payload, t1, t2, parse);
    WalletTimes(payload, t1, t2, parse, digest);
  }

  lemma TradeTimes(payload: Json, t1: int, t2: int, parse: string -> Option<real>)
    ensures FormattedTrade(payload, t1, parse).Ok? <==> FormattedTrade(payload, t2, parse).Ok?
  {
    if TradeParts(payload, parse).Ok? {
      var parts := TradeParts(payload, parse).value;
      assert FormattedTrade(payload, t1, parse) == ProcessTradeAll(parts.0, parts.1, t1);
      assert FormattedTrade(payload, t2, parse) == ProcessTradeAll(parts.0, parts.1, t2);
    }
  }

  lemma WalletTimes(payload: Json, t1: int, t2: int, parse: string -> Option<real>, digest: WalletData -> string)
    ensures FormattedWallet(payload, t1, parse, digest).Ok? <==> FormattedWallet(payload, t2, parse, digest).Ok?
    ensures FormattedWallet(payload, t1, parse, digest).Ok? ==>
              FormattedWallet(payload, t1, parse, digest).value.id == FormattedWallet(payload, t2, parse, digest).value.id
  {
    if FiatPricesOf(payload).Ok? && Index(payload, "wallet").Ok? {
      WalletIdIgnoresTime(Index(payload, "wallet").value, CurrencyConverter(FiatPricesOf(payload).value), t1, t2, parse, digest);
    }
  }

  /** A payload without "wallet" cannot be formatted: the lookup raises. */
  lemma MissingWalletRaises(payload: Json, timestamp: int, parse: string -> Option<real>, digest: WalletData -> string)
    requires Index(payload, "wallet").Raised?
    ensures FormattedPayload(payload, timestamp, parse, digest).Raised?
  {
  }

  // ------------------------------------------------------------ processor

  /** `TradeDataProcessor`: one per request, created at time `timestamp`;
      each formatted payload leaves its converter and swap calculator behind. */
  class TradeDataProcessor {
    var converter: Option<CurrencyConverter>
    var swapCalculator: Option<SwapCalculator>
    const timestamp: int

    /** `__init__`: no converter yet; `now` is the current UTC time in seconds. */
    constructor(now: int)
      ensures converter == None && swapCalculator == None && timestamp == now
    {
      converter := None;
      swapCalculator := None;
      timestamp := now;
    }

    /** `wallet_value`: the chains in turn, their totals accumulated, the sum
        rounded.  Valuing before a converter is set raises. */
    method WalletValue(wallet: Dict<real>, parse: string -> Option<real>) returns (r: Result<Valuation>)
      ensures r == if converter.Some? then Valuate(wallet, converter.value, parse) else Raised
    {
      if converter.None? {
        return Raised;
      }
      var c := converter.value;
      var byChain: Dict<ChainValue> := [];
      var total := 0.0;
      var i := 0;
      while i < |Chains|
        invariant 0 <= i <= |Chains|
        invariant i == 0 ==> byChain == [] && total == 0.0
        invariant i >= 1 ==> ChainValues(wallet, "137", c, parse).Ok?
        invariant i == 1 ==> byChain == [("137", ChainValues(wallet, "137", c, parse).value)]
                             && total == 0.0 + ChainValues(wallet, "137", c, parse).value.total
        invariant i == 2 ==> ChainValues(wallet, "solana", c, parse).Ok?
                             && byChain == [("137", ChainValues(wallet, "137", c, parse).value),
                                            ("solana", ChainValues(wallet, "solana", c, parse).value)]
                             && total == 0.0 + ChainValues(wallet, "137", c, parse).value.total
                                             + ChainValues(wallet, "solana", c, parse).value.total
      {
        var chainData := ChainValues(wallet, Chains[i], c, parse);
        if chainData.Raised? {
          return Raised;
        }
        byChain := Put(byChain, Chains[i], chainData.value);
        total := total + chainData.value.total;
        i := i + 1;
      }
      return Ok(Valuation(byChain, Round6(total)));
    }

    /** `_process_entries`: the loop assigning each entry's rounded amount
        to its key. */
    method ProcessEntries(walletData: Json) returns (r: Result<Dict<real>>)
      ensures r == EntriesOf(walletData)
    {
      var entries :- Elements(walletData);
      var processed: Dict<real> := [];
      var i := 0;
      AssignFromPairs([], entries, 0, Reader());
      assert entries[0..] == entries;
      while i < |entries|
        invariant 0 <= i <= |entries|
        invariant AssignFrom(processed, entries, i, Reader()) == ProcessedEntries(entries)
      {
        var entry := EntryPair(entries[i]);
        if entry.Raised? {
          return Raised;
        }
        processed := Put(processed, entry.value.0, entry.value.1);
        i := i + 1;
      }
      return Ok(processed);
    }

    /** `process_wallet_data`: the entries, then `_construct_wallet_return_data`
        with the valuation by the current converter. */
    method ProcessWalletData(walletData: Json, parse: string -> Option<real>, digest: WalletData -> string)
      returns (r: Result<WalletDocument>)
      ensures r == if converter.Some? then WalletDocumentOf(walletData, converter.value, timestamp, parse, digest)
                   else Raised
    {
      var coins :- ProcessEntries(walletData);
      var value :- WalletValue(coins, parse);
      var data := WalletData(coins, value);
      return Ok(WalletDocument(digest(data), data, timestamp));
    }

    /** `format_trade_document`: sets the converter and the swap calculator
        from the payload's configuration, then builds both documents. */
    method FormatTradeDocument(payload: Json, parse: string -> Option<real>, digest: WalletData -> string)
      returns (r: Result<ProcessedPayload>)
      modifies this
      ensures r == FormattedPayload(payload, timestamp, parse, digest)
      ensures FiatPricesOf(payload).Ok? ==>
                && converter == Some(CurrencyConverter(FiatPricesOf(payload).value))
                && swapCalculator == Some(SwapCalculator(ConfigOf(payload).value, converter.value))
      ensures FiatPricesOf(payload).Raised? ==> converter == old(converter) && swapCalculator == old(swapCalculator)
    {
      var trade :- Index(payload, "trade");
      var config :- Index(trade, "swapConfig");
      var fiat :- Index(config, "fiatPrices");
      converter := Some(CurrencyConverter(fiat));
      swapCalculator := Some(SwapCalculator(config, converter.value));
      var pair :- Index(trade, "pair");
      var renta :- swapCalculator.value.CalculatePercentage(pair, parse);
      renta := Round6(renta);
      var newConfig :- ProcessTradeConfig(config, parse);
      var withConfig := Obj(Put(trade.fields, "swapConfig", newConfig));
      var rawPair :- Index(withConfig, "pair");
      var newPair :- ProcessTradePair(rawPair);
      var rewritten := Obj(Put(withConfig.fields, "pair", newPair));
      var tradeDoc :- ProcessTradeAll(rewritten, renta, timestamp);
      var walletData :- Index(payload, "wallet");
      var walletDoc :- ProcessWalletData(walletData, parse, digest);
      return Ok(ProcessedPayload(tradeDoc, walletDoc));
    }
  }
}
