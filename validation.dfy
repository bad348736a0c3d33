/** The request validators of the ingestion API (RequestValidator): each
    returns the message of the first check that fails, in the order the
    checks are written. */
module Validation {
  import opened Wrappers
  import opened Dicts
  import opened Json

  /** `(True, "")` or `(False, message)`. */
  datatype Verdict = Pass | Fail(message: string)

  // ---------------------------------------------------------------------
  // validate_trade_data
  // ---------------------------------------------------------------------

  const TradeShapeMessage := "Trade data must be a dictionary with 'swapConfig' and 'pair'."
  const ConfigKeysMessage := "Missing keys in 'swapConfig'."
  const FiatPricesMessage := "'fiatPrices' in 'swapConfig' should be a dictionary."

  function SideMessage(side: string): string {
    "Missing or invalid '" + side + "' in 'pair'."
  }

  function SideKeysMessage(side: string): string {
    "Missing keys in 'pair." + side + "'."
  }

  const ConfigKeys: seq<string> := ["fromAmount", "toAmount", "exchangeRate", "transactionCost", "fiatPrices"]
  const SideKeys: seq<string> := ["type", "chain", "token", "address", "currency"]
  const Sides: seq<string> := ["from", "to"]

  /** `all(key in j for key in keys)`, stopping at the first absent key;
      `in` on a value that is not a container raises. */
  function AllContained(j: Json, keys: seq<string>): Result<bool> {
    if keys == [] then Ok(true)
    else
      var present :- Contains(j, keys[0]);
      if !present then Ok(false) else AllContained(j, keys[1..])
  }

  predicate HasAll(d: Dict<Json>, keys: seq<string>) {
    forall k :: k in keys ==> k in Keys(d)
  }

  /** On a dict, `all(key in d ...)` never raises and holds when every key is present. */
  lemma {:induction false} AllContainedDict(fs: Dict<Json>, keys: seq<string>)
    ensures AllContained(Obj(fs), keys) == Ok(HasAll(fs, keys))
  {
    if keys != [] {
      AllContainedDict(fs, keys[1..]);
      assert forall k :: k in keys ==> k == keys[0] || k in keys[1..];
    }
  }

  /** The loop over the sides "from" and "to" of `pair`. */
  function ValidateSides(pair: Json, sides: seq<string>): Result<Verdict> {
    if sides == [] then Ok(Pass)
    else
      var side := sides[0];
      var present :- Contains(pair, side);
      if !present then Ok(Fail(SideMessage(side)))
      else
        var s :- Index(pair, side);
        if !s.Obj? then Ok(Fail(SideMessage(side)))
        else if !HasAll(s.fields, SideKeys) then Ok(Fail(SideKeysMessage(side)))
        else ValidateSides(pair, sides[1..])
  }

  /** `validate_trade_data(data)`. */
  function ValidateTradeData(data: Json): Result<Verdict> {
    if !data.Obj? || "swapConfig" !in Keys(data.fields) || "pair" !in Keys(data.fields) then Ok(Fail(TradeShapeMessage))
    else
      var swapConfig := Get(data.fields, "swapConfig").value;
      var hasKeys :- AllContained(swapConfig, ConfigKeys);
      if !hasKeys then Ok(Fail(ConfigKeysMessage))
      else
        var fiatPrices :- Index(swapConfig, "fiatPrices");
        if !fiatPrices.Obj? then Ok(Fail(FiatPricesMessage))
        else ValidateSides(Get(data.fields, "pair").value, Sides)
  }

  /** `trade[key]` of a dict that holds `key`. */
  function Field(d: Dict<Json>, key: string): Json
    requires key in Keys(d)
  {
    Get(d, key).value
  }

  /** A pair side: a dict with the five keys. */
  predicate WellFormedSide(pair: Dict<Json>, side: string) {
    side in Keys(pair) && Field(pair, side).Obj? && HasAll(Field(pair, side).fields, SideKeys)
  }

  /** The trade shape, stated without the order of the checks. */
  predicate WellFormedTrade(data: Json) {
    && data.Obj?
    && "swapConfig" in Keys(data.fields) && "pair" in Keys(data.fields)
    && var config := Field(data.fields, "swapConfig");
       var pair := Field(data.fields, "pair");
       && config.Obj? && HasAll(config.fields, ConfigKeys)
       && Field(config.fields, "fiatPrices").Obj?
       && pair.Obj? && WellFormedSide(pair.fields, "from") && WellFormedSide(pair.fields, "to")
  }

  lemma {:induction false} SidesPass(pair: Json, sides: seq<string>)
    ensures ValidateSides(pair, sides) == Ok(Pass) <==>
              forall side :: side in sides ==> pair.Obj? && WellFormedSide(pair.fields, side)
  {
    if sides != [] {
      var side := sides[0];
      SidesPass(pair, sides[1..]);
      assert forall t :: t in sides <==> t == side || t in sides[1..];
      if !pair.Obj? {
        assert Index(pair, side).Raised?;
        assert ValidateSides(pair, sides) != Ok(Pass);
        assert side in sides;
      } else if WellFormedSide(pair.fields, side) {
        assert Contains(pair, side) == Ok(true);
        assert Index(pair, side) == Ok(Field(pair.fields, side));
        assert ValidateSides(pair, sides) == ValidateSides(pair, sides[1..]);
      } else {
        assert ValidateSides(pair, sides) != Ok(Pass);
        assert side in sides;
      }
    }
  }

  /** The checks on `swapConfig`: on a dict, the key test never raises and
      `fiatPrices` can then be read; on anything else, reading
      `fiatPrices` raises. */
  lemma ConfigChecks(config: Json)
    ensures config.Obj? ==> AllContained(config, ConfigKeys) == Ok(HasAll(config.fields, ConfigKeys))
    ensures config.Obj? && HasAll(config.fields, ConfigKeys) ==>
              Index(config, "fiatPrices") == Ok(Field(config.fields, "fiatPrices"))
    ensures !config.Obj? ==> Index(config, "fiatPrices").Raised?
  {
    if config.Obj? {
      AllContainedDict(config.fields, ConfigKeys);
      assert "fiatPrices" in ConfigKeys;
    }
  }

  /** The validator passes a trade exactly when it has the documented shape. */
  lemma TradePassesIffWellFormed(data: Json)
    ensures ValidateTradeData(data) == Ok(Pass) <==> WellFormedTrade(data)
  {
    if data.Obj? && "swapConfig" in Keys(data.fields) && "pair" in Keys(data.fields) {
      var config := Field(data.fields, "swapConfig");
      var pair := Field(data.fields, "pair");
      ConfigChecks(config);
      SidesPass(pair, Sides);
      assert forall t :: t in Sides <==> t == "from" || t == "to";
      if config.Obj? && HasAll(config.fields, ConfigKeys) && Field(config.fields, "fiatPrices").Obj? {
        assert ValidateTradeData(data) == ValidateSides(pair, Sides);
      } else {
        assert ValidateTradeData(data) != Ok(Pass);
      }
    }
  }

  /** A dict-shaped request is answered without raising: the first failing
      check decides, and the checks on `swapConfig` come before those on
      `pair`, "from" before "to". */
  lemma TradeFirstFailingCheck(data: Json)
    requires data.Obj? && "swapConfig" in Keys(data.fields) && "pair" in Keys(data.fields)
    requires Field(data.fields, "swapConfig").Obj? && Field(data.fields, "pair").Obj?
    ensures ValidateTradeData(data).Ok?
    ensures var config := Field(data.fields, "swapConfig").fields;
            var pair := Field(data.fields, "pair").fields;
            ValidateTradeData(data).value ==
              if !HasAll(config, ConfigKeys) then Fail(ConfigKeysMessage)
              else if !Field(config, "fiatPrices").Obj? then Fail(FiatPricesMessage)
              else if !WellFormedSide(pair, "from") then
                (if "from" in Keys(pair) && Field(pair, "from").Obj? then Fail(SideKeysMessage("from")) else Fail(SideMessage("from")))
              else if !WellFormedSide(pair, "to") then
                (if "to" in Keys(pair) && Field(pair, "to").Obj? then Fail(SideKeysMessage("to")) else Fail(SideMessage("to")))
              else Pass
  {
    var config := Field(data.fields, "swapConfig");
    var pair := Field(data.fields, "pair");
    ConfigChecks(config);
    if HasAll(config.fields, ConfigKeys) {
      if Field(config.fields, "fiatPrices").Obj? {
        assert ValidateTradeData(data) == ValidateSides(pair, ["from", "to"]);
        SideStep(pair.fields, "from", ["to"]);
        SideStep(pair.fields, "to", []);
        assert ["from"] + ["to"] == ["from", "to"];
        assert ["to"] + [] == ["to"];
      }
    }
  }

  /** One side of a dict-shaped pair. */
  lemma SideStep(pair: Dict<Json>, side: string, rest: seq<string>)
    ensures ValidateSides(Obj(pair), [side] + rest) ==
              if WellFormedSide(pair, side) then ValidateSides(Obj(pair), rest)
              else if side in Keys(pair) && Field(pair, side).Obj? then Ok(Fail(SideKeysMessage(side)))
              else Ok(Fail(SideMessage(side)))
  {
    var sides := [side] + rest;
    assert sides[0] == side && sides[1..] == rest;
    if side in Keys(pair) {
      assert Index(Obj(pair), side) == Ok(Field(pair, side));
    }
  }

  /** Every answer other than a pass carries one of the documented messages,
      and a request that is not a dict is told so. */
  lemma TradeMessages(data: Json)
    ensures !data.Obj? ==> ValidateTradeData(data) == Ok(Fail(TradeShapeMessage))
    ensures ValidateTradeData(data).Ok? && ValidateTradeData(data).value.Fail? ==>
              ValidateTradeData(data).value.message in
                {TradeShapeMessage, ConfigKeysMessage, FiatPricesMessage,
                 SideMessage("from"), SideKeysMessage("from"), SideMessage("to"), SideKeysMessage("to")}
  {
    if data.Obj? && "swapConfig" in Keys(data.fields) && "pair" in Keys(data.fields) {
      SidesMessages(Field(data.fields, "pair"), Sides);
    }
  }

  lemma {:induction false} SidesMessages(pair: Json, sides: seq<string>)
    ensures ValidateSides(pair, sides).Ok? && ValidateSides(pair, sides).value.Fail? ==>
              exists side :: side in sides &&
                ValidateSides(pair, sides).value.message in {SideMessage(side), SideKeysMessage(side)}
  {
    if sides != [] {
      SidesMessages(pair, sides[1..]);
    }
  }

  // ---------------------------------------------------------------------
  // validate_wallet_data
  // ---------------------------------------------------------------------

  const WalletListMessage := "Wallet data should be a list."
  const ItemDictMessage := "Each item in wallet data should be a dictionary."
  const AddressMessage := "Wallet item 'address' is missing or not a string."
  const AmountMessage := "Wallet item 'amount' is missing or not a float or string."
  const AmountParseMessage := "Wallet item 'amount' string could not be converted to float."
  const ChainMessage := "Wallet item 'chain' is missing or not a string."
  const TypeMessage := "Wallet item 'type' is missing or not a string."
  const CurrencyMessage := "Wallet item 'currency' is missing or not a string."

  /** `key in item and isinstance(item[key], str)`. */
  predicate HasString(d: Dict<Json>, key: string) {
    Get(d, key).Some? && Get(d, key).value.Str?
  }

  /** `isinstance(x, (float, str, int))`; a bool is an int in Python. */
  predicate IsAmountType(j: Json) {
    j.Num? || j.Str? || j.Bool?
  }

  /** `item["amount"] = float(item["amount"])` for a string amount that
      parses; every other item is left as it is. */
  function Normalize(item: Json, parse: string -> Option<real>): Json {
    if item.Obj? && Get(item.fields, "amount").Some? && Get(item.fields, "amount").value.Str?
       && parse(Get(item.fields, "amount").value.s).Some?
    then Obj(Put(item.fields, "amount", Num(parse(Get(item.fields, "amount").value.s).value)))
    else item
  }

  /** The conversion touches the amount and nothing else. */
  lemma NormalizeGet(item: Json, parse: string -> Option<real>, k: string)
    requires item.Obj?
    ensures Normalize(item, parse).Obj?
    ensures Keys(Normalize(item, parse).fields) == Keys(item.fields)
    ensures k != "amount" ==> Get(Normalize(item, parse).fields, k) == Get(item.fields, k)
  {
    if Normalize(item, parse) != item {
      PutGet(item.fields, "amount", Num(parse(Get(item.fields, "amount").value.s).value), k);
    }
  }

  /** A verdict together with the value as the checks leave it. */
  datatype Checked<T> = Checked(verdict: Verdict, value: T)

  /** The checks of one wallet item, in order: the verdict and the item as
      the checks leave it (its amount already converted when a later check
      fails). */
  function CheckItem(item: Json, parse: string -> Option<real>): Checked<Json> {
    if !item.Obj? then Checked(Fail(ItemDictMessage), item)
    else if !HasString(item.fields, "address") then Checked(Fail(AddressMessage), item)
    else if !(Get(item.fields, "amount").Some? && IsAmountType(Get(item.fields, "amount").value)) then Checked(Fail(AmountMessage), item)
    else if Get(item.fields, "amount").value.Str? && parse(Get(item.fields, "amount").value.s).None? then Checked(Fail(AmountParseMessage), item)
    else
      var updated := Normalize(item, parse);
      if !HasString(updated.fields, "chain") then Checked(Fail(ChainMessage), updated)
      else if !HasString(updated.fields, "type") then Checked(Fail(TypeMessage), updated)
      else if !HasString(updated.fields, "currency") then Checked(Fail(CurrencyMessage), updated)
      else Checked(Pass, updated)
  }

  /** The check applied to each wallet item. */
  type ItemCheck = Json -> Checked<Json>

  /** The checks of `validate_wallet_data`, for a given `float()`. */
  function ItemValidator(parse: string -> Option<real>): ItemCheck {
    item => CheckItem(item, parse)
  }

  /** The loop over the items from position `i` on: each item is checked
      and written back, and the first item that fails ends the loop. */
  function CheckFrom(items: seq<Json>, i: nat, check: ItemCheck): (r: Checked<seq<Json>>)
    requires i <= |items|
    ensures |r.value| == |items|
    decreases |items| - i
  {
    if i == |items| then Checked(Pass, items)
    else
      var c := check(items[i]);
      var next := items[i := c.value];
      if c.verdict.Fail? then Checked(c.verdict, next) else CheckFrom(next, i + 1, check)
  }

  /** `validate_wallet_data(wallet)`: the verdict and the wallet as left by
      the in-place conversions. */
  function WalletCheck(wallet: Json, parse: string -> Option<real>): Checked<Json> {
    if !wallet.Arr? then Checked(Fail(WalletListMessage), wallet)
    else
      var checked := CheckFrom(wallet.items, 0, ItemValidator(parse));
      Checked(checked.verdict, Arr(checked.value))
  }

  /** `validate_wallet_data`, with the loop over the items and the in-place
      rewriting of string amounts. */
  method ValidateWalletData(wallet: Json, parse: string -> Option<real>) returns (v: Verdict, updated: Json)
    ensures v == WalletCheck(wallet, parse).verdict
    ensures updated == WalletCheck(wallet, parse).value
  {
    if !wallet.Arr? {
      return Fail(WalletListMessage), wallet;
    }
    var items := wallet.items;
    var i := 0;
    while i < |items|
      invariant 0 <= i <= |items|
      invariant CheckFrom(items, i, ItemValidator(parse)) == CheckFrom(wallet.items, 0, ItemValidator(parse))
    {
      var checked := CheckItem(items[i], parse);
      items := items[i := checked.value];
      if checked.verdict.Fail? {
        return checked.verdict, Arr(items);
      }
      i := i + 1;
    }
    return Pass, Arr(items);
  }

  /** `CheckItemPasses`, for the check as the loop applies it. */
  lemma ItemValidatorMeaning(item: Json, parse: string -> Option<real>)
    ensures ItemValidator(parse)(item).verdict == Pass <==> WellFormedItem(item, parse)
    ensures WellFormedItem(item, parse) ==> ItemValidator(parse)(item).value == Normalize(item, parse)
  {
    CheckItemPasses(item, parse);
  }

  /** From position `i` on, the loop passes exactly when every remaining item
      passes its check; it never touches the items before `i`, and after a
      pass every remaining item is as its check leaves it. */
  lemma {:induction false} CheckFromPasses(items: seq<Json>, i: nat, check: ItemCheck)
    requires i <= |items|
    ensures CheckFrom(items, i, check).value[..i] == items[..i]
    ensures CheckFrom(items, i, check).verdict == Pass <==> forall j :: i <= j < |items| ==> check(items[j]).verdict == Pass
    ensures CheckFrom(items, i, check).verdict == Pass ==>
              forall j :: i <= j < |items| ==> CheckFrom(items, i, check).value[j] == check(items[j]).value
    decreases |items| - i
  {
    if i < |items| {
      var c := check(items[i]);
      var next := items[i := c.value];
      if c.verdict.Pass? {
        CheckFromPasses(next, i + 1, check);
        var out := CheckFrom(items, i, check).value;
        assert out == CheckFrom(next, i + 1, check).value;
        assert forall j :: i < j < |items| ==> next[j] == items[j];
        assert out[..i + 1] == next[..i + 1];
        assert out[..i + 1][..i] == out[..i];
        assert out[i] == out[..i + 1][i] == next[i];
      }
    }
  }

  /** Item `k` is the first to fail its check among the items from `i` on:
      the items between passed and come out as checked, item `k` comes out
      as its check leaves it, and the items after it come out untouched. */
  predicate FirstFailing(items: seq<Json>, out: seq<Json>, i: nat, k: nat, check: ItemCheck)
    requires |out| == |items|
  {
    && i <= k < |items| && check(items[k]).verdict.Fail? && out[k] == check(items[k]).value
    && (forall j :: i <= j < k ==> check(items[j]).verdict == Pass && out[j] == check(items[j]).value)
    && (forall j :: k < j < |items| ==> out[j] == items[j])
  }

  /** A failing loop stops at the first failing item, with its verdict. */
  lemma {:induction false} CheckFromFails(items: seq<Json>, i: nat, check: ItemCheck)
    requires i <= |items| && CheckFrom(items, i, check).verdict.Fail?
    ensures exists k: nat :: FirstFailing(items, CheckFrom(items, i, check).value, i, k, check) &&
                        CheckFrom(items, i, check).verdict == check(items[k]).verdict
    decreases |items| - i
  {
    var out := CheckFrom(items, i, check).value;
    var c := check(items[i]);
    var next := items[i := c.value];
    if c.verdict.Fail? {
      assert out == next;
      assert FirstFailing(items, out, i, i, check);
    } else {
      CheckFromFails(next, i + 1, check);
      assert out == CheckFrom(next, i + 1, check).value;
      var k: nat :| FirstFailing(next, out, i + 1, k, check) && CheckFrom(next, i + 1, check).verdict == check(next[k]).verdict;
      CheckFromPasses(next, i + 1, check);
      assert out[..i + 1] == next[..i + 1];
      assert out[i] == out[..i + 1][i] == next[i];
      assert forall j :: i < j < |items| ==> next[j] == items[j];
      assert FirstFailing(items, out, i, k, check);
    }
  }

  /** An item passes when it is a dict holding a string address, a number,
      bool or parseable string as amount, and string chain, type and currency. */
  predicate WellFormedItem(item: Json, parse: string -> Option<real>) {
    && item.Obj?
    && HasString(item.fields, "address")
    && Get(item.fields, "amount").Some? && IsAmountType(Get(item.fields, "amount").value)
    && (Get(item.fields, "amount").value.Str? ==> parse(Get(item.fields, "amount").value.s).Some?)
    && HasString(item.fields, "chain") && HasString(item.fields, "type") && HasString(item.fields, "currency")
  }

  lemma CheckItemPasses(item: Json, parse: string -> Option<real>)
    ensures CheckItem(item, parse).verdict == Pass <==> WellFormedItem(item, parse)
    ensures CheckItem(item, parse).verdict == Pass ==> CheckItem(item, parse).value == Normalize(item, parse)
  {
    if item.Obj? {
      NormalizeGet(item, parse, "chain");
      NormalizeGet(item, parse, "type");
      NormalizeGet(item, parse, "currency");
    }
  }

  /** A wallet list passes exactly when every item is well formed, and then
      every item comes back with its amount converted. */
  lemma ItemsPassIffWellFormed(items: seq<Json>, parse: string -> Option<real>)
    ensures WalletCheck(Arr(items), parse).verdict == Pass <==> forall i :: 0 <= i < |items| ==> WellFormedItem(items[i], parse)
    ensures WalletCheck(Arr(items), parse).verdict == Pass ==>
              WalletCheck(Arr(items), parse).value == Arr(seq(|items|, i requires 0 <= i < |items| => Normalize(items[i], parse)))
  {
    var check := ItemValidator(parse);
    var out := CheckFrom(items, 0, check);
    assert WalletCheck(Arr(items), parse) == Checked(out.verdict, Arr(out.value));
    CheckFromPasses(items, 0, check);
    forall i | 0 <= i < |items|
      ensures ItemValidator(parse)(items[i]).verdict == Pass <==> WellFormedItem(items[i], parse)
      ensures WellFormedItem(items[i], parse) ==> ItemValidator(parse)(items[i]).value == Normalize(items[i], parse)
    {
      ItemValidatorMeaning(items[i], parse);
    }
    if out.verdict == Pass {
      assert out.value == seq(|items|, i requires 0 <= i < |items| => Normalize(items[i], parse));
    }
  }

  /** An item whose amount is a number or a bool: what `_process_entries` can format. */
  predicate NumericAmount(item: Json) {
    item.Obj? && Get(item.fields, "amount").Some? &&
    (Get(item.fields, "amount").value.Num? || Get(item.fields, "amount").value.Bool?)
  }

  lemma NormalizedAmount(item: Json, parse: string -> Option<real>)
    requires WellFormedItem(item, parse)
    ensures NumericAmount(Normalize(item, parse))
  {
    if Get(item.fields, "amount").value.Str? {
      var v := parse(Get(item.fields, "amount").value.s).value;
      PutGet(item.fields, "amount", Num(v), "amount");
    }
  }

  /** After a pass, every amount is a number (or a bool). */
  lemma PassedAmountsAreNumbers(wallet: Json, parse: string -> Option<real>)
    requires WalletCheck(wallet, parse).verdict == Pass
    ensures WalletCheck(wallet, parse).value.Arr?
    ensures forall out :: out in WalletCheck(wallet, parse).value.items ==> NumericAmount(out)
  {
    var items := wallet.items;
    ItemsPassIffWellFormed(items, parse);
    var outs := WalletCheck(wallet, parse).value.items;
    forall out | out in outs ensures NumericAmount(out) {
      var i :| 0 <= i < |outs| && outs[i] == out;
      assert WellFormedItem(items[i], parse);
      NormalizedAmount(items[i], parse);
    }
  }

  /** On a failure, the verdict is that of the first ill-formed item; the
      items before it keep their conversions, and the items after it are
      untouched. */
  lemma FailureKeepsEarlierConversions(items: seq<Json>, parse: string -> Option<real>)
    requires WalletCheck(Arr(items), parse).verdict.Fail?
    ensures exists k ::
              && 0 <= k < |items| && !WellFormedItem(items[k], parse)
              && WalletCheck(Arr(items), parse).verdict == ItemValidator(parse)(items[k]).verdict
              && (forall j :: 0 <= j < k ==> WellFormedItem(items[j], parse) &&
                                             WalletCheck(Arr(items), parse).value.items[j] == Normalize(items[j], parse))
              && (forall j :: k < j < |items| ==> WalletCheck(Arr(items), parse).value.items[j] == items[j])
  {
    var check := ItemValidator(parse);
    CheckFromFails(items, 0, check);
    var out := WalletCheck(Arr(items), parse).value.items;
    var k: nat :| FirstFailing(items, out, 0, k, check) && CheckFrom(items, 0, check).verdict == check(items[k]).verdict;
    ItemValidatorMeaning(items[k], parse);
    forall j | 0 <= j < k
      ensures WellFormedItem(items[j], parse) && out[j] == Normalize(items[j], parse)
    {
      ItemValidatorMeaning(items[j], parse);
    }
  }

  /** A value that is not a list is refused; the empty list passes. */
  lemma WalletListShape(wallet: Json, parse: string -> Option<real>)
    ensures !wallet.Arr? ==> WalletCheck(wallet, parse) == Checked(Fail(WalletListMessage), wallet)
    ensures WalletCheck(Arr([]), parse) == Checked(Pass, Arr([]))
  {
  }
}
