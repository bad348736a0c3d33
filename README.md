# Logger: a Dafny model of trade ingestion, buffering and export

Logger collects telemetry about stable-coin swaps. Each swap is a *trade*
together with a snapshot of the originating *wallet*. The telemetry moves
through four small services:

- **Retriever** is an HTTP endpoint. It checks the Authorization header and
  validates every payload of a request: the trade's shape, then every wallet
  item. It then normalises each payload:
  - the gain of the swap (its *rentability*) against the EUR/USD market rate;
  - the cost amounts rounded to six decimals;
  - each side of the pair collapsed into `chain:token:currency`;
  - the wallet collapsed into a map from `chain:address:currency` to a
    rounded amount;
  - the wallet valued per chain ("137" and "solana") in EUR, USD and in total.

  It stores one trade document per payload. It stores a wallet document only
  when no stored wallet has the same content hash `_id`.
- **Compacter** flattens nested documents into dotted-path rows. When the
  trade collection holds more than `export_limit` documents, it takes the
  oldest documents of the trade and wallet collections, writes them as two
  CSV tables in one zip archive, stores the archive and deletes exactly the
  documents it exported.
- **Server** is an in-memory accumulator. Authorised POSTs append records to
  one list, a list body element by element. Authorised GETs return the whole
  list.
- **Client** polls the accumulator. Each cycle appends the answer to a JSON
  buffer file. Once the buffer holds 50000 records, it exports the first
  50000 as CSV and keeps the rest.

## How the model is organised

| module | what it models |
|---|---|
| `Wrappers`, `Dicts`, `Text`, `Json`, `Numeric` | Python values: `Dicts` models dicts as insertion-ordered sequences of pairs. `Text` covers `str(n)`, `split(":")[0]`, `[-3:]` and `[:-1]`. `Json` covers JSON values, truthiness, `in`, subscription, iteration, `float()` and `str()`. `Numeric` covers six-decimal rounding. |
| `Conversion` | `CurrencyConverter` and `SwapCalculator`, as datatypes with member functions. |
| `Valuation` | `wallet_value` and `_calculate_chain_values`, as functions. |
| `Processing` | The rest of `TradeDataProcessor`: functions for each step, plus a `class` with the processor's fields and its looping methods, each proved equal to its function. |
| `Validation` | `RequestValidator`: the trade check as a function; the wallet check as a method whose loop rewrites each item's amount. |
| `Auth` | `AuthorizationValidator.validate`. |
| `Ingestion` | `receive_json` and `MongoDBHandler.insert_trade`/`insert_wallet`, over a class holding the stored trades and wallets. |
| `Flattening` | `flatten_json`, as a walk that returns the output dict. It is related to an independent list of the leaves. |
| `Exporting` | `export_to_csv_in_memory` and the Compacter's `MongoDBHandler` and `DataExporter`, over a class holding named collections of documents and the stored files. |
| `Server` | The accumulator, as a class with one `seq` field. |
| `Client` | One cycle of `main`, as a transition function and a class for what it leaves on disk. |
| `Deployment` | The client talking to the accumulator. |

### Conventions

- **Exceptions.** An exception the services do not catch (KeyError,
  TypeError, ValueError, ZeroDivisionError) is the `Raised` case of `Result`.
  The web framework answers it with status 500, which `Ingestion` models as
  `ServerError`.
- **Foreign computations are parameters:**
  - `parse` is what `float()` makes of a string;
  - `digest` is `md5(str(data))`;
  - `now` is what `int(datetime.now().replace(tzinfo=timezone.utc).timestamp())` yields (Retriever/app.py:98): the host's local wall-clock time labelled as UTC, in seconds, which is the UTC time only on a host whose time zone is UTC;
  - `dateId` and `dateMonth` are the day's `%Y-%m-%d` and `%Y-%m` texts.
- **Numbers.** JSON numbers are reals. `float(f'{x:.6f}')` is `Numeric.Round6`, computed on reals.

### Behaviour of the code worth knowing

- Swap amounts (`fromAmount`, `toAmount`) are checked for presence but not stored: the stored trade is the dict `process_trade_all` builds, which has no amount field. No digit fields are read.
- The rentability is `100 * exchangeRate - p`, in the pair's own terms. Here `p` is 100 converted from EUR to USD or from USD to EUR for those two pairs, and 100 for any other pair.
- The rentability is computed from the pair as received. `format_trade_document` computes it (Retriever/app.py:202) before `process_trade_pair` rewrites the pair (Retriever/app.py:205). Computing it from the rewritten pair would raise: see `Processing.RewrittenPairHasNoCurrency`.
- The Compacter makes a single export per run: one zip archive stored in `file_storage`.
- The CSV header of an export is the union of the flattened keys. It is built as a `set`, so the column order is whatever the set yields.
- The Client exports at most one batch per cycle, from a single `if`.

## Model

| member | source | states |
|---|---|---|
| Conversion.CurrencyConverter.Convert | Retriever/app.py:37-43 | Converting a currency to itself, or between two currencies neither of which is "EUR", returns the amount unchanged. |
| Conversion.ConvertFromEuro | Retriever/app.py:39-40 | Out of "EUR" into another currency, the result is the amount times that currency's rate. |
| Conversion.ConvertToEuro | Retriever/app.py:41-42 | Into "EUR" from another currency with a non-zero rate, the result is the amount divided by that rate. |
| Conversion.ConvertRaises | Retriever/app.py:37-43 | The conversion raises exactly when the currencies differ and one of these holds: from "EUR", the target's rate is missing or not a number; into "EUR", the source's rate is missing, not a number, or zero. |
| Conversion.ConvertRoundTrip | Retriever/app.py:37-43 | Converting out of "EUR" and back returns the amount, for any currency with a non-zero rate. |
| Conversion.ConvertRoundTripInverse | Retriever/app.py:37-43 | Converting into "EUR" and back returns the amount, for any currency with a non-zero rate. |
| Conversion.SwapCalculator.PounderedAmount | Retriever/app.py:71-79 | A missing `pairs[side]['currency']` raises. On any pair other than EUR→USD and USD→EUR, the amount is 100 and no rate is consulted. |
| Conversion.IsRelevantPair | Retriever/app.py:81-88 | Only EUR→USD and USD→EUR are relevant. `PounderedAmount`'s contract states that every other pair gives 100, and `Conversion.PercentageIgnoresRatesOfOtherPairs` that its gain then does not depend on the fiat prices. |
| Conversion.SwapCalculator.CalculatePercentage | Retriever/app.py:61-69 | The gain is defined exactly when `exchangeRate` is a number and the poundered amount is defined. It is then `100 * exchangeRate` minus the poundered amount. |
| Conversion.PercentageOfPoundered | Retriever/app.py:67-69 | A known rate and a known poundered amount `p` give the gain `100 * rate - p`. |
| Conversion.PercentageIgnoresRatesOfOtherPairs | Retriever/app.py:79-88 | For a pair other than EUR→USD and USD→EUR, the gain does not depend on the fiat prices and is `100 * exchangeRate - 100`. |
| Conversion.PercentageEuroToDollar | Retriever/app.py:37-88 | For EUR→USD, the gain is `100 * exchangeRate - 100 * USD rate`. |
| Conversion.PercentageDollarToEuro | Retriever/app.py:37-88 | For USD→EUR with a non-zero USD rate, the gain is `100 * exchangeRate - 100 / USD rate`. |
| Conversion.ZeroDollarRateRaises | Retriever/app.py:37-88 | For USD→EUR, a zero USD rate makes the computation raise (ZeroDivisionError). |
| Conversion.PercentageExample | Retriever/app.py:61-88 | EUR→USD with exchange rate 1.02 and USD rate 1.1 gives -8. |
| Valuation.ChainValuesNeedDollarRate | Retriever/app.py:115-126 | A chain's values are defined exactly when the USD rate of the fiat prices is a number. |
| Valuation.ChainValuesMeaning | Retriever/app.py:122-126 | A chain's EUR and USD values are the rounded sums of the entries whose key's first ':'-segment is the chain and whose last three characters are "EUR", respectively "USD". Its total is the rounded `USD sum + convert(EUR sum, "EUR", "USD")`. |
| Valuation.ChainValues | Retriever/app.py:115-126 | One chain's EUR sum, USD sum and total in USD, each rounded. `Valuation.ChainValuesMeaning` states that these are the sums over the keys of that chain and currency, and that the total adds the EUR sum converted to USD. `Valuation.ChainValuesNeedDollarRate` states when it raises. |
| Valuation.Valuate | Retriever/app.py:100-113 | Both chains, then the rounded sum of their totals. `Valuation.ValuationShape` and `Valuation.ValuateParts` state its shape and parts. `Valuation.UnvaluedEntryKeepsValuation` states that entries of other chains or currencies do not count. |
| Valuation.UnvaluedEntryKeepsChain | Retriever/app.py:122-123 | An entry matching a chain in neither EUR nor USD leaves that chain's values unchanged. |
| Valuation.UnvaluedEntryKeepsValuation | Retriever/app.py:107-124 | An entry whose key names neither `137` nor `solana`, or whose currency ends in neither EUR nor USD, leaves the whole valuation unchanged. |
| Valuation.ValuationShape | Retriever/app.py:107-112 | The valuation is defined exactly when the USD rate is. Its `by_chain` has exactly the keys "137" and "solana", distinct and in that order. Its total is the rounded sum of the two chain totals. |
| Valuation.ValuateParts | Retriever/app.py:107-112 | A valuation consists of the values of chain "137" and chain "solana" and the rounded sum of their totals. |
| Valuation.SumWhereAppend | Retriever/app.py:122-123 | A further entry adds its amount to a chain's sum exactly when its key matches the chain and the currency. |
| Valuation.SumWherePutOther | Retriever/app.py:122-123 | Assigning a key that does not match a chain and currency changes no sum for them. |
| Valuation.SumWhereNoMatch | Retriever/app.py:122-123 | A wallet without a matching key sums to zero. For example, entries of an unsupported chain, or with a currency not ending in EUR or USD, count nowhere. |
| Valuation.EmptyWalletIsZero | Retriever/app.py:107-126 | An empty wallet is valued at zero in every chain and in total. |
| Processing.CostAmounts | Retriever/app.py:134-135 | Rounding a cost list succeeds exactly when every cost's `amountUsd` converts to a float. The result has the list's length and keeps its order. |
| Processing.Numbers | Retriever/app.py:134-135 | The rounded amounts become a JSON list of the same length, element by element. |
| Processing.RoundCostsMeaning | Retriever/app.py:134-135 | Rewriting one cost key keeps the configuration's keys. That key holds the rounded amounts of the old list, and every other key keeps its value. |
| Processing.ProcessTradeConfigMeaning | Retriever/app.py:128-135 | `process_trade_config` rounds both `gasCosts` and `feeCosts` and leaves every other key and the key order as they were. |
| Processing.ProcessTradeConfig | Retriever/app.py:128-135 | Rounds the gas costs, then the fee costs. `Processing.ProcessTradeConfigMeaning` states that each list becomes its rounded amounts in order and that every other key is kept. |
| Processing.ProcessTradePairMeaning | Retriever/app.py:137-144 | `process_trade_pair` sets "from" and "to" to `chain:token:currency` of the old sides and leaves every other key as it was. |
| Processing.ProcessTradePair | Retriever/app.py:137-144 | Rewrites "from", then "to", as `chain:token:currency` texts. `Processing.ProcessTradePairMeaning` states that both texts come from the original sides and that nothing else changes. |
| Processing.RewrittenPairHasNoCurrency | Retriever/app.py:202-205 | A rewritten pair has no `['from']['currency']`: computing the gain after the rewrite would raise, which is why the code computes it first. |
| Processing.EntryPairs | Retriever/app.py:164-166 | Reading wallet entries succeeds exactly when every entry reads. The result has one key/amount pair per entry, in order. |
| Processing.ProcessedEntriesLaterWins | Retriever/app.py:164-166 | In the processed wallet, a key holds the amount of the last entry with that key. |
| Processing.ProcessedEntriesKeys | Retriever/app.py:163-167 | The processed wallet has distinct keys and at most one per entry. A key is present exactly when some entry produces it. |
| Processing.ProcessedEntries | Retriever/app.py:157-167 | Assigns each entry's key its rounded amount in turn. `Processing.ProcessedEntriesKeys` and `Processing.ProcessedEntriesLaterWins` state its keys, its size and who wins on a repeated key. |
| Processing.EntriesOf | Retriever/app.py:163-167 | `_process_entries` over what `for entry in wallet_data` visits, which raises on a scalar (`Json.ElementsMeaning`). |
| Processing.WalletKeyClassification | Retriever/app.py:169-175 | When the chain text has no ':' and the currency has at least three characters: the key's first ':'-segment is the chain, its last three characters are the currency's last three, and it matches exactly that chain and currency suffix. |
| Processing.WalletKey | Retriever/app.py:169-175 | `chain:address:currency`. `Processing.WalletKeyClassification` states that the valuation classifies the key by that chain and the last three letters of that currency. |
| Processing.WalletIdIgnoresTime | Retriever/app.py:183-190 | The wallet document's `_id` does not depend on its timestamp, and the document carries the processor's timestamp. |
| Processing.WalletDocumentOf | Retriever/app.py:177-191 | The processed entries, their valuation, their digest as id, and the time. `Processing.FormattedWalletMeaning` and `Processing.WalletIdIgnoresTime` state these parts. |
| Processing.CostOfFields | Retriever/app.py:221-225 | The "cost" part holds the configuration's `gasCosts`, `feeCosts` and `transactionCost` as they are. |
| Processing.ExchangeOfFields | Retriever/app.py:226-230 | The "exchange" part holds the rounded `exchangeRate` and the pair's "from" and "to". |
| Processing.PriceOfFields | Retriever/app.py:231-236 | The "price" part holds USD at 1.0, EUR at `fiatPrices["USD"]`, and SOL and MAT at the trade's `solanaPrice` and `maticPrice`. |
| Processing.TradeDocumentFields | Retriever/app.py:210-239 | The trade document holds the configuration's gas and fee cost lists and total cost, its exchange rate rounded, the pair's sides, `fiatPrices["USD"]` as EUR price, 1.0 as USD price, the trade's `solanaPrice` and `maticPrice` as SOL and MAT prices, the given rentability and the processor's timestamp. |
| Processing.ProcessTradeAll | Retriever/app.py:210-239 | The "cost", "exchange" and "price" parts, the rentability and the time. `Processing.TradeDocumentFields` states where each part comes from. |
| Processing.RewrittenTradeFields | Retriever/app.py:204-205 | After both rewrites, the trade's `swapConfig` is the processed configuration and its `pair` is the processed pair. |
| Processing.RewrittenTradeOther | Retriever/app.py:204-205 | Rewriting touches only `swapConfig` and `pair`: every other entry of the trade, such as the SOL and MATIC prices, is as received. |
| Processing.FormattedTradeMeaning | Retriever/app.py:200-206 | The formatted trade's rentability is the rounded gain computed from the raw pair. Its exchange sides are the rewritten `chain:token:currency` texts. It also holds the total cost, the EUR price from `fiatPrices["USD"]`, USD at 1.0 and the timestamp. |
| Processing.FormattedWalletMeaning | Retriever/app.py:177-191 | The wallet document is the processed wallet valued with the payload's fiat prices. Its `_id` is the digest of its data and it carries the timestamp. |
| Processing.FormattedPayload | Retriever/app.py:193-208 | The trade part, then the wallet part. A payload raising in either raises. `Processing.FormattedTradeMeaning`, `Processing.FormattedWalletMeaning` and `Processing.FormattedPayloadTimes` state its two documents. |
| Processing.FormattedPayloadTimes | Retriever/app.py:183-190 | Whether a payload can be formatted, and its wallet `_id`, do not depend on the clock. |
| Processing.TradeTimes | Retriever/app.py:210-239 | Whether a trade can be formatted does not depend on the clock. |
| Processing.WalletTimes | Retriever/app.py:177-191 | Whether a wallet can be formatted, and its `_id`, do not depend on the clock. |
| Processing.MissingWalletRaises | Retriever/app.py:207 | A payload without "wallet" cannot be formatted: `trade_data["wallet"]` raises. |
| Processing.TradeDataProcessor.constructor | Retriever/app.py:96-98 | A new processor has no converter and takes the current time as its timestamp. |
| Processing.TradeDataProcessor.WalletValue | Retriever/app.py:100-113 | The chain loop accumulating the totals computes the valuation of the current converter. Without a converter it raises. |
| Processing.TradeDataProcessor.ProcessEntries | Retriever/app.py:157-167 | The loop assigning each entry's rounded amount to its key computes the processed wallet of the entries, and raises on the first unreadable entry. |
| Processing.TradeDataProcessor.ProcessWalletData | Retriever/app.py:146-155 | The wallet document is the processed entries with their valuation by the current converter, the digest as `_id` and the processor's timestamp. |
| Processing.TradeDataProcessor.FormatTradeDocument | Retriever/app.py:193-208 | The result is the formatted payload. Once the fiat prices are found, the processor keeps the converter and the swap calculator built from them; otherwise both are unchanged. |
| Validation.AllContainedDict | Retriever/app.py:274-283 | On a dict, `all(key in d for key in keys)` never raises and holds exactly when every key is present. |
| Validation.SidesPass | Retriever/app.py:280-284 | The side loop passes exactly when every side is a dict holding the five keys. |
| Validation.ConfigChecks | Retriever/app.py:273-277 | On a dict configuration, the key check never raises, and once the keys are present `fiatPrices` can be read. On anything else, reading `fiatPrices` raises. |
| Validation.TradePassesIffWellFormed | Retriever/app.py:269-286 | The trade check returns `(True, "")` exactly when the data is a dict with "swapConfig" and "pair", swapConfig has its five keys and a dict `fiatPrices`, and both sides are dicts with their five keys. |
| Validation.ValidateTradeData | Retriever/app.py:269-286 | The trade check. `Validation.TradePassesIffWellFormed` states that it passes exactly on a well-formed trade. `Validation.TradeFirstFailingCheck` and `Validation.TradeMessages` state which message a failing trade gets. |
| Validation.TradeFirstFailingCheck | Retriever/app.py:273-286 | On a dict trade with dict swapConfig and pair, the failure message is the one of the first failing check: missing swapConfig keys, then a non-dict `fiatPrices`, then side "from", then side "to". |
| Validation.SideStep | Retriever/app.py:280-284 | For each side, a missing or non-dict side gives "Missing or invalid", a dict without the five keys gives "Missing keys", and a good side goes on to the next. |
| Validation.TradeMessages | Retriever/app.py:270-284 | A non-dict trade gets the shape message. Every failure message is one of the seven the check can return. |
| Validation.SidesMessages | Retriever/app.py:281-284 | A side failure names one of the sides checked. |
| Validation.NormalizeGet | Retriever/app.py:306-308 | Converting a string amount keeps the item's keys and changes no field but "amount". |
| Validation.CheckFrom | Retriever/app.py:298-316 | The item loop returns a list as long as the items. |
| Validation.ValidateWalletData | Retriever/app.py:288-318 | The loop checking and rewriting each item returns the verdict and the rewritten list of the wallet check. |
| Validation.ItemValidatorMeaning | Retriever/app.py:299-316 | An item passes exactly when it is well formed, and a passing item is rewritten only by the amount conversion. |
| Validation.CheckFromPasses | Retriever/app.py:298-316 | The loop passes exactly when every item passes. Items before the start are untouched, and on a pass every item is replaced by its rewritten form. |
| Validation.CheckFromFails | Retriever/app.py:298-316 | A failing loop stops at the first failing item: earlier items pass and are rewritten, later ones are untouched, and the verdict is that item's. |
| Validation.CheckItemPasses | Retriever/app.py:299-316 | An item passes when it is a dict with a string "address", "chain", "type" and "currency" and an amount that is a number, or a string `float()` accepts. |
| Validation.ItemsPassIffWellFormed | Retriever/app.py:295-318 | A list passes exactly when every item is well formed, and the list is then rewritten item by item. |
| Validation.NormalizedAmount | Retriever/app.py:306-308 | After the check, a well-formed item's amount is a number. |
| Validation.PassedAmountsAreNumbers | Retriever/app.py:295-318 | After a pass, the wallet is a list whose every amount is a number. |
| Validation.FailureKeepsEarlierConversions | Retriever/app.py:298-310 | On a failure at item `k`: every earlier item passed and keeps its converted amount, item `k` is ill formed and names the message, and later items are untouched. |
| Validation.WalletListShape | Retriever/app.py:295-318 | A wallet that is not a list is refused with "Wallet data should be a list."; the empty list passes. |
| Auth.MissingHeaderRefused | Retriever/app.py:253-259 | A request without an Authorization header is refused. |
| Auth.AuthorizationValidator.Validate | Retriever/app.py:253-259 | The header must be exactly `Bearer ` and the key. `Auth.ValidateExact`, `Auth.MissingHeaderRefused` and `Auth.UnsetKeyAcceptsBearerNone` state it. |
| Auth.ValidateExact | Retriever/app.py:253-259 | With `API_KEY` set, exactly the header `"Bearer " + API_KEY` is accepted. |
| Auth.UnsetKeyAcceptsBearerNone | Retriever/app.py:253-259 | With `API_KEY` unset, exactly the header "Bearer None" is accepted. |
| Ingestion.WalletIds | Retriever/app.py:353 | The ids of the stored wallets in order. |
| Ingestion.WithWallet | Retriever/app.py:348-354 | Inserting a wallet leaves its id stored. An id already stored changes nothing; a new one appends the document. |
| Ingestion.WithWalletsKeeps | Retriever/app.py:348-354 | Inserting wallets only appends, keeps ids distinct and leaves every inserted id stored. |
| Ingestion.WithWalletsIdsGrow | Retriever/app.py:353-354 | A stored id stays stored. |
| Ingestion.WithWalletsPresent | Retriever/app.py:353-354 | Inserting wallets whose ids are all stored changes nothing. |
| Ingestion.WithWalletsTwice | Retriever/app.py:348-354 | Inserting the same wallets a second time changes nothing: each is kept once. |
| Ingestion.MongoDBHandler.constructor | Retriever/app.py:326-333 | A new store holds no trades and no wallets. |
| Ingestion.MongoDBHandler.InsertTrade | Retriever/app.py:341-346 | The trade is appended and the wallets are unchanged. |
| Ingestion.MongoDBHandler.InsertWallet | Retriever/app.py:348-354 | The wallet is inserted only when no stored wallet has its `_id`, and the trades are unchanged. |
| Ingestion.ScreenFrom | Retriever/app.py:385-391 | A validation loop that does not raise returns one payload per payload. |
| Ingestion.ScreenPayload | Retriever/app.py:386-391 | A dict payload gets the trade check of its "trade" (default `{}`), then the wallet check of its "wallet" (default `[]`). A non-dict payload raises at `data.get`. |
| Ingestion.ScreenPayloads | Retriever/app.py:385-391 | The loop over all payloads computes the validation of the request. |
| Ingestion.PassesScreenMeaning | Retriever/app.py:386-391 | A payload passes exactly when it is a dict, its trade passes and its wallet passes. |
| Ingestion.ScreenOneVerdict | Retriever/app.py:386-391 | A raising trade check raises. Otherwise a failed trade check gives its message before the wallet is checked; if the trade passes, the wallet's verdict decides. |
| Ingestion.FailsScreenMeaning | Retriever/app.py:386-391 | A payload fails with a message exactly when its trade fails with it, or its trade passes and its wallet fails with it. |
| Ingestion.ScreenFromPasses | Retriever/app.py:385-391 | The loop passes exactly when every remaining payload passes, and each is then replaced by its validated form. |
| Ingestion.ScreenFromFails | Retriever/app.py:385-391 | A failing loop names the message of a payload all of whose predecessors pass. |
| Ingestion.ScreenFromFirstFailure | Retriever/app.py:385-391 | When the first failing payload fails with a message, the loop fails with that message. |
| Ingestion.ProcessAll | Retriever/app.py:393 | Formatting the payloads succeeds exactly when every payload can be formatted. It yields one document pair per payload, in order. |
| Ingestion.ProcessPayloads | Retriever/app.py:392-393 | The comprehension formatting each payload in turn computes the formatted list with one processor's timestamp. |
| Ingestion.TradesOf | Retriever/app.py:395 | The trade documents, in order. |
| Ingestion.WalletsOf | Retriever/app.py:396 | The wallet documents, in order. |
| Ingestion.StoreAll | Retriever/app.py:394-396 | The storing loop appends every trade and inserts every wallet in order. |
| Ingestion.ReceiveJson | Retriever/app.py:369-397 | The endpoint answers as the request function says. It stores exactly that function's trades, and its wallets under the `_id` rule. |
| Ingestion.Receive | Retriever/app.py:369-397 | The reply and the stored documents of one POST. The lemmas `Ingestion.UnauthorizedStoresNothing` through `Ingestion.ResendStoresNoNewWallet` state each outcome. `Ingestion.ReceiveJson` is the method proved equal to it. |
| Ingestion.UnauthorizedStoresNothing | Retriever/app.py:375-380 | The answer is 401 exactly when the header is not `"Bearer " + API_KEY`. Every answer but acceptance stores nothing. |
| Ingestion.EmptyBodyIsMissingData | Retriever/app.py:382-384 | An authorised request with an absent or falsy body gets "Missing data" and stores nothing. |
| Ingestion.FirstInvalidPayloadRejects | Retriever/app.py:385-391 | When payload `k` is the first to fail, the request gets 400 with its message and nothing is stored, even when earlier payloads are valid. |
| Ingestion.BadRequestNamesFirstFailure | Retriever/app.py:385-391 | A 400 names the message of a failing payload all of whose predecessors pass. |
| Ingestion.AcceptedMeaning | Retriever/app.py:369-397 | A list request is accepted exactly when authorised, non-empty, every payload passes and every validated payload can be formatted. The stored documents are then those payloads' formatted documents, in order. |
| Ingestion.MissingWalletIsServerError | Retriever/app.py:385-397 | A payload without "wallet" passes validation (an empty wallet list is valid) but makes formatting raise: the request gets 500 and stores nothing. |
| Ingestion.ResendStoresNoNewWallet | Retriever/app.py:348-354 | A request accepted once is accepted at any other time, and re-sending it stores no new wallet. |
| Flattening.Under | Compacter/app.py:55-57 | Leaves one level further down: the same leaves with the segment in front of each path. |
| Flattening.Keyed | Compacter/app.py:57-64 | The output pairs of a walk started at `name`: one per leaf, keyed by `name` and the dotted path without its last character. |
| Flattening.DottedJoin | Compacter/app.py:57-64 | Dropping the trailing '.' of the accumulated name gives the '.'-joined path. |
| Flattening.FlattenIntoLeaves | Compacter/app.py:48-64 | Each step of the walk assigns, in order, the output pairs of the leaves below it. |
| Flattening.FlattenIsLeafAssignment | Compacter/app.py:39-67 | `flatten_json` assigns, in visiting order, each scalar leaf's value under its '.'-joined path. |
| Flattening.Flatten | Compacter/app.py:39-67 | The walk of `flatten_json`. `Flattening.FlattenIsLeafAssignment`, `Flattening.FlattenKeys` and `Flattening.FlattenSizeAndCollisions` relate it to the list of leaves. |
| Flattening.KeyHasLeaf | Compacter/app.py:55-64 | Every key of the leaf pairs is the joined path of some leaf. |
| Flattening.LeafHasKey | Compacter/app.py:55-64 | The joined path of every leaf is a key of the leaf pairs. |
| Flattening.FlattenKeys | Compacter/app.py:55-64 | A key is in the output exactly when it is the joined path of some leaf. |
| Flattening.FlattenSizeAndCollisions | Compacter/app.py:64 | The output has distinct keys and at most one per leaf. On a path collision, the leaf visited later wins. |
| Flattening.LeavesScalar | Compacter/app.py:63-64 | Every leaf value is a scalar. |
| Flattening.FlattenIsFlat | Compacter/app.py:39-67 | The output is one level deep: distinct keys and no dict or list values. |
| Flattening.FlatRecordUnchanged | Compacter/app.py:55-64 | A dict whose values are all scalars flattens to itself. |
| Flattening.FlattenIdempotent | Compacter/app.py:39-67 | Flattening a flattened record changes nothing. |
| Flattening.NoLeavesNoKeys | Compacter/app.py:55-62 | A value without leaves adds no key. |
| Flattening.EmptyContainersHaveNoLeaves | Compacter/app.py:55-62 | Empty dicts and empty lists have no leaves. |
| Flattening.Indexed | Compacter/app.py:58-62 | Scalar list elements sit under "0", "1", … in order. |
| Flattening.ScalarListPositions | Compacter/app.py:58-62 | A list of scalars flattens to its elements under "0", "1", … in element order. |
| Text.NatStr | Compacter/app.py:61 | `str(i)` of an index is a non-empty digit text. |
| Text.NatStrInjective | Compacter/app.py:61 | Distinct indices give distinct path segments. |
| Text.FirstSegment | Retriever/app.py:122-123 | `split(":")[0]` is a prefix without ':'. It is the whole text or ends at the first ':'. |
| Text.LastThree | Retriever/app.py:122-123 | `[-3:]` is the last three characters, or the whole text when it is shorter. |
| Text.DropLast | Compacter/app.py:64 | `name[:-1]` is the name without its last character, and "" stays "". |
| Text.FirstSegmentJoined | Retriever/app.py:122-123 | A colon-free head joined by ':' splits back to that head. |
| Text.LastThreeOfTail | Retriever/app.py:122-123 | The last three characters come from a tail at least three long. |
| Dicts.Keys | Retriever/app.py:164-166 | A dict's keys in insertion order. |
| Dicts.Get | Retriever/app.py:386 | A lookup finds a value exactly when the key is present. |
| Dicts.GetStored | Retriever/app.py:386 | A value found under a key is stored under that key. |
| Dicts.Put | Retriever/app.py:166 | Assigning a present key keeps the key order; assigning a new key appends it. |
| Dicts.PutGet | Retriever/app.py:166 | After `d[k] = v`, `k` holds `v` and every other key holds what it held. |
| Dicts.PutDistinct | Retriever/app.py:166 | Assignment keeps keys distinct. |
| Dicts.PutAllAppend | Retriever/app.py:164-166 | Assigning two runs of pairs is assigning the first, then the second. |
| Dicts.PutAllGet | Retriever/app.py:164-166 | After a run of assignments, a key holds its last assigned value, or its old value when never assigned. |
| Dicts.PutAllKeys | Retriever/app.py:164-166 | The keys after a run of assignments are the old keys and the assigned ones. |
| Dicts.PutAllSize | Retriever/app.py:164-166 | A run of assignments adds at most one key per pair and keeps keys distinct. |
| Dicts.PutAllFresh | Compacter/app.py:56-64 | When no key repeats, assigning is appending. |
| Dicts.LastValueAt | Retriever/app.py:164-166 | A key's last value is the one of its last pair. |
| Numeric.Round6 | Retriever/app.py:126 | The six-decimal rounding is within half a millionth of the value and is a whole number of millionths. |
| Numeric.Round6Idempotent | Retriever/app.py:112-126 | Rounding a rounded amount changes nothing. |
| Numeric.Round6Integer | Retriever/app.py:112-126 | Whole numbers are left alone. |
| Json.Truthy | Server/app.py:16 | Python truthiness: false exactly for None, False, zero and the empty string, list and dict. `Server.ReceivedMeaning` and `Ingestion.EmptyBodyIsMissingData` state its use. |
| Json.Contains | Retriever/app.py:270-274 | `key in j`. |
| Json.ContainsMeaning | Retriever/app.py:270-274 | `in` raises exactly on non-string scalars, and on a dict it holds exactly when subscription answers. |
| Json.Index | Retriever/app.py:273 | `j[key]`. |
| Json.IndexMeaning | Retriever/app.py:273 | Subscription answers exactly on a dict holding the key, with a value stored under that key. |
| Json.Elements | Retriever/app.py:385 | `for x in j`. |
| Json.ElementsMeaning | Retriever/app.py:385 | Iteration raises exactly on non-string scalars. A dict yields its keys in order, and a string one element per character. |
| Json.FloatOf | Retriever/app.py:307 | `float(j)`. |
| Json.FloatOfMeaning | Retriever/app.py:307 | `float()` agrees with arithmetic on ints, floats and bools. Any other value converts only as a string that `parse` accepts. |
| Json.Display | Retriever/app.py:143-144 | `str(j)` in an f-string. |
| Json.DisplayCollisions | Retriever/app.py:143-144 | `str()` is exact on strings, but distinct fractions, lists or dicts render alike. |
| Exporting.ColumnSet | Compacter/app.py:72-74 | The columns are exactly the keys occurring in some row. |
| Exporting.CsvTable | Compacter/app.py:70-74 | The table has one row per record, the flattened record. Every row's keys are among the columns. |
| Exporting.ExportToCsvInMemory | Compacter/app.py:70-81 | The loops flattening each record and collecting the keys compute that table. |
| Exporting.InsertByTime | Compacter/app.py:18 | Inserting into the sorted run adds the document and removes nothing. |
| Exporting.InsertByTimeMembers | Compacter/app.py:18 | Inserting adds that document and no other. |
| Exporting.InsertByTimeSorted | Compacter/app.py:18 | Inserting into an ascending run keeps it ascending. |
| Exporting.SortByTime | Compacter/app.py:18 | `sort('timestamp', 1)` is a permutation in ascending timestamp order. |
| Exporting.Limit | Compacter/app.py:18 | `limit(n)` keeps a prefix of at most `abs(n)` documents, and `limit(0)` keeps all of them. |
| Exporting.Oldest | Compacter/app.py:17-18 | `read_data` returns stored documents in ascending timestamp order, at most `abs(limit)` of them, and all of them for limit 0. |
| Exporting.Without | Compacter/app.py:20-22 | `delete_many` keeps exactly the documents whose id is not among the given ones. |
| Exporting.DeleteRemovesExactly | Compacter/app.py:20-22 | With distinct ids, deleting documents read from a collection removes exactly them: what is kept plus what was read is the collection. |
| Exporting.OldestFirst | Compacter/app.py:17-120 | A document read is never newer than a document left behind. |
| Exporting.ReadThenDelete | Compacter/app.py:17-120 | Read-then-delete partitions a collection: nothing is lost or duplicated, the kept count is the rest, limit 0 empties it, and every exported document is no newer than every kept one. |
| Exporting.MongoDBHandler.constructor | Compacter/app.py:13-15 | The store starts with the given collections, each with distinct ids, and no stored files. |
| Exporting.MongoDBHandler.CountDocuments | Compacter/app.py:107 | `count_documents({})` is the collection's size. |
| Exporting.MongoDBHandler.ReadData | Compacter/app.py:17-18 | `read_data` returns the oldest documents of the collection. |
| Exporting.MongoDBHandler.DeleteDocuments | Compacter/app.py:20-22 | Only the named collection loses the documents with the given ids; stored files are untouched. |
| Exporting.MongoDBHandler.StoreFile | Compacter/app.py:24-31 | The file is appended to `file_storage`; collections are untouched. |
| Exporting.DeletedCollections | Compacter/app.py:20-22 | Deleting from one collection leaves every other collection as it was. |
| Exporting.ExportedCollections | Compacter/app.py:110-120 | After the export, trades and wallets each lose exactly their exported documents, and every other collection is unchanged. |
| Exporting.WithoutDistinct | Compacter/app.py:20-22 | Deletion keeps ids distinct. |
| Exporting.DataExporter.constructor | Compacter/app.py:103-104 | The exporter works on the given store. |
| Exporting.DataExporter.ExportData | Compacter/app.py:106-120 | With at most `export_limit` trades, nothing changes. Otherwise one archive of the oldest trades and wallets is stored under the month, named by the day, and exactly those documents are deleted. |
| Exporting.Bodies | Compacter/app.py:113-114 | The exported records are the documents' bodies, in order. |
| Server.Accumulator.constructor | Server/app.py:6 | The list starts empty. |
| Server.Accumulator.ReceiveJson | Server/app.py:8-24 | A POST answers 401, "Missing data" or stored. The list grows by exactly the received records: a list body's elements in order, any other truthy body whole, and nothing otherwise. |
| Server.Accumulator.GetAllJson | Server/app.py:26-34 | An authorised GET returns the whole list, an unauthorised one nothing; the list is unchanged. |
| Server.ReceivedMeaning | Server/app.py:12-24 | A POST stores something exactly when it is answered as stored: one record per element of a list body, one record otherwise. |
| Server.ReceivedOrigin | Server/app.py:16-21 | Every stored record is the body or an element of a list body. |
| Server.Received | Server/app.py:12-21 | The records an authorised, truthy POST adds. `Server.ReceivedMeaning` and `Server.ReceivedOrigin` state them. |
| Server.PostReplyOf | Server/app.py:12-24 | 401 for a bad header, stored for a truthy body, "Missing data" otherwise. `Server.ReceivedMeaning` states that it is stored exactly when records are added. |
| Client.LoadData | Client/app.py:49-59 | A missing buffer file loads as the empty list, and an existing file as its content. |
| Client.Convert | Client/app.py:76-87 | The writing loop computes the CSV of the records, raising at the first record that is not a dict or has a key outside the columns. |
| Client.CsvOfMeaning | Client/app.py:84-87 | The CSV's columns are the first record's keys. It has one row per record, in order, and every record's keys are among the columns. |
| Client.CsvOf | Client/app.py:76-87 | The CSV export of the records. `Client.CsvOfMeaning` states its columns and rows, and `Client.Convert` is the writing loop proved equal to it. |
| Client.AuthHeader | Client/app.py:99-101 | The header the client evidently means to send: "Bearer " followed by the token. |
| Client.AuthHeaderAsWritten | Client/app.py:100 | The literal text `Bearer {token}`. `Deployment.AsWrittenHeaderRefused` states that the accumulator accepts it only under the key `{token}`. |
| Client.CycleOf | Client/app.py:89-122 | One cycle, for a given way of building the header. `Client.NoLossNoDuplication`, `Client.RefusedTouchesNothing`, `Client.MissingFileStartsEmpty` and `Client.SavedBufferStaysBelowThreshold` state its outcomes, and `Client.Disk.RunCycle` is the method proved equal to it. |
| Client.Disk.constructor | Client/app.py:106 | The disk starts with the buffer file as found and no exports. |
| Client.Disk.RunCycle | Client/app.py:89-122 | For the header function it is given, the cycle ends as `Client.CycleOf` says; the rest of the model passes it the corrected header `Client.AuthHeader`. Only a saving cycle writes the buffer, with the saved records. At most one CSV is exported per cycle. |
| Client.RefusedTouchesNothing | Client/app.py:108-111 | An "Unauthorized" answer ends the cycle before the buffer is loaded: nothing is exported or saved. |
| Client.MissingFileStartsEmpty | Client/app.py:112-122 | With no buffer file, the cycle saves just the fetched record. |
| Client.NoLossNoDuplication | Client/app.py:112-122 | The exported records followed by the saved ones are the loaded records followed by the fetched one. Below the threshold nothing is exported. At or above it, exactly 50000 records are exported once, under the first exported record's keys. |
| Client.SavedBufferStaysBelowThreshold | Client/app.py:115-122 | A buffer loaded below the threshold is saved below it. |
| Deployment.AsWrittenHeaderRefused | Client/app.py:99-101 | As written, the client's header is accepted only when the accumulator's key is the literal text "{token}". Any other key refuses it. |
| Deployment.AsWrittenCycleRefused | Client/app.py:95-111 | With the header as written and the accumulator holding the client's own key (anything but `{token}`), every cycle is refused: nothing is exported and the buffer file is not written. |
| Deployment.CorrectedHeaderServed | Client/app.py:99-122 | With the corrected header, a client sharing the accumulator's key is served. A first cycle saves the record `{"json_data": records}`. |
| Deployment.WrongKeyRefused | Client/app.py:108-111 | A client holding a different key is refused, and its cycle changes nothing. |

## Left out

- HTTP plumbing is not modelled: Bottle routing, request and response objects, status codes beyond the answer kinds, `MEMFILE_MAX` and the `/health` route. Requests are decoded values and answers are datatypes.
- MongoDB is modelled as named sequences of documents. Two of its features are reduced:
  - `insert_one`'s added `_id` is not modelled; a trade document is simply appended.
  - A stored document's `_id` and `timestamp` are kept beside its body, and only the body is flattened into the CSV row, so the `_id` column Mongo adds is not modelled.
- File I/O, `json.load`/`json.dump`, the `http.client` fetch and `time.sleep(300)` are foreign to the model. The fetch is a function from the header to the decoded answer, and the buffer file is an optional decoded value.
- A malformed buffer file (where `json.load` raises) is not distinguished from a buffer that is not a list: both are a crash.
- `hashlib.md5(str(data))` is a parameter `digest` of the wallet data. The model only states that the id is the digest of the data, not of the timestamp.
- IEEE floating point is not modelled: amounts are reals and `float(f'{x:.6f}')` is round-half-up on reals. Ties and binary representation errors differ from Python.
- The int/float distinction of JSON numbers is merged into one real. `Json.Display` renders strings exactly, whole numbers as integers, and other floats, lists and dicts by a placeholder (`<float>`, `<list>`, `<dict>`). It renders two kinds of values:
  - The `chain`, `address` and `currency` of a wallet key. Validation requires these to be strings, so the key is exact.
  - The `chain`, `token` and `currency` of a pair side (Retriever/app.py:143-144). Validation only checks that these are present (Retriever/app.py:282). So a side text can hold a placeholder, and two distinct non-string values can give the same text.
- Ties in `sort('timestamp', 1)`: the database fixes no order among documents with equal timestamps, and ties are common because one request stamps all its documents with one time. `Exporting.SortByTime` breaks ties by stored order, which is one of the orders the database may return.
- The clock is a parameter: `datetime.now()` and the `%Y-%m-%d` and `%Y-%m` texts. The CSV file name of the client, which uses `time.time()`, is not modelled.
- The CSV and zip codecs (`csv.DictWriter`, `zipfile`, `BytesIO`/`StringIO`) are foreign. A CSV is its column set or list with its rows; an archive is its named tables.
- The Client's partially written CSV file, when the writer raises midway, is not modelled: a crash exports nothing.
- Aliasing of Python dicts is modelled by values. `process_trade_config` and `process_trade_pair` mutate `trade_data` in place; the model returns the rewritten value and passes it on.
- Processing.TradeDataProcessor.FormatTradeDocument: its `swapCalculator` field holds the configuration as received. In the code, `self.SwapCalculator.swap_config` (Retriever/app.py:201) is the same dict that `process_trade_config` rounds in place (Retriever/app.py:204), so after a successful call it holds the rounded cost lists. Nothing reads the field afterwards, so no result differs.
- `MongoDBHandler.close_connection` (Retriever/app.py:335-339) and the module-level wiring (Retriever/app.py:356-357, Compacter/app.py:122-125) are connection setup only.
- `ZipCompressor.export_to_zip_in_memory` is modelled only as the pairing of file names with tables (Compacter/app.py:89-96).
- Exposer/app.py is not part of this model: it is a read-only projection of the store.
- Concurrency between requests or between services is not modelled. Each operation runs alone.

## Findings

| source | as written | input that shows it | evidently intended | confidence | as-written member | corrected member |
|---|---|---|---|---|---|---|
| Client/app.py:100 | The header is the plain string `"Bearer {token}"`, not an f-string, so the token is never interpolated. | `BEARER_TOKEN` = `API_KEY` = `"k"`: the header sent is `Bearer {token}`, the accumulator expects `Bearer k`, answers `{"error": "Unauthorized"}` and the client exits without saving. | `f"Bearer {token}"`, the form the Server and Retriever compare against. | not executed | Client.AuthHeaderAsWritten, Deployment.AsWrittenCycleRefused | Client.AuthHeader, Deployment.CorrectedHeaderServed |

