/** The ingestion endpoint (`receive_json` of the ingestion API) and the two
    collections it writes.  A request is authorised, then every payload is
    validated, then every payload is formatted, and only then is anything
    stored: trades are always added, wallets only when no stored wallet has
    the same id. */
module Ingestion {
  import opened Wrappers
  import opened Dicts
  import opened Json
  import opened Auth
  import opened Validation
  import opened Processing

  // ---------------------------------------------------------------- store

  /** The ids of stored wallet documents, in order. */
  function WalletIds(ws: seq<WalletDocument>): (ids: seq<string>)
    ensures |ids| == |ws|
    ensures forall i :: 0 <= i < |ws| ==> ids[i] == ws[i].id
  {
    if ws == [] then [] else [ws[0].id] + WalletIds(ws[1..])
  }

  /** No two stored wallets share an id. */
  predicate DistinctWalletIds(ws: seq<WalletDocument>) {
    forall i, j :: 0 <= i < j < |ws| ==> ws[i].id != ws[j].id
  }

  /** `insert_wallet(doc)`: insert unless a wallet with the same `_id` is stored. */
  function WithWallet(ws: seq<WalletDocument>, doc: WalletDocument): (r: seq<WalletDocument>)
    ensures doc.id in WalletIds(r)
    ensures doc.id in WalletIds(ws) ==> r == ws
    ensures doc.id !in WalletIds(ws) ==> r == ws + [doc]
  {
    if doc.id in WalletIds(ws) then ws
    else
      assert WalletIds(ws + [doc])[|ws|] == doc.id;
      ws + [doc]
  }

  /** Inserting the wallets one after the other. */
  function WithWallets(ws: seq<WalletDocument>, docs: seq<WalletDocument>): seq<WalletDocument>
    decreases |docs|
  {
    if docs == [] then ws else WithWallets(WithWallet(ws, docs[0]), docs[1..])
  }

  /** Inserting one more wallet after a run of insertions. */
  lemma {:induction false} WithWalletsSnoc(ws: seq<WalletDocument>, docs: seq<WalletDocument>, doc: WalletDocument)
    ensures WithWallets(ws, docs + [doc]) == WithWallet(WithWallets(ws, docs), doc)
    decreases |docs|
  {
    if docs == [] {
      assert docs + [doc] == [doc];
    } else {
      assert (docs + [doc])[1..] == docs[1..] + [doc];
      WithWalletsSnoc(WithWallet(ws, docs[0]), docs[1..], doc);
    }
  }

  /** Insertion keeps the stored wallets in place, keeps ids distinct, and
      afterwards every inserted wallet's id is stored exactly once. */
  lemma {:induction false} WithWalletsKeeps(ws: seq<WalletDocument>, docs: seq<WalletDocument>)
    requires DistinctWalletIds(ws)
    ensures ws <= WithWallets(ws, docs)
    ensures DistinctWalletIds(WithWallets(ws, docs))
    ensures forall i :: 0 <= i < |docs| ==> docs[i].id in WalletIds(WithWallets(ws, docs))
    decreases |docs|
  {
    if docs != [] {
      var next := WithWallet(ws, docs[0]);
      assert DistinctWalletIds(next) by {
        if docs[0].id !in WalletIds(ws) {
          forall i | 0 <= i < |ws| ensures ws[i].id != docs[0].id {
            assert WalletIds(ws)[i] == ws[i].id;
          }
        }
      }
      WithWalletsKeeps(next, docs[1..]);
      WithWalletsIdsGrow(next, docs[1..]);
      assert docs[0].id in WalletIds(WithWallets(ws, docs));
      forall i | 1 <= i < |docs| ensures docs[i].id in WalletIds(WithWallets(ws, docs)) {
        assert docs[1..][i - 1] == docs[i];
      }
    }
  }

  /** Stored ids stay stored. */
  lemma {:induction false} WithWalletsIdsGrow(ws: seq<WalletDocument>, docs: seq<WalletDocument>)
    ensures forall id :: id in WalletIds(ws) ==> id in WalletIds(WithWallets(ws, docs))
    decreases |docs|
  {
    if docs != [] {
      var next := WithWallet(ws, docs[0]);
      forall id | id in WalletIds(ws) ensures id in WalletIds(next) {
        var i :| 0 <= i < |ws| && WalletIds(ws)[i] == id;
        assert WalletIds(next)[i] == id;
      }
      WithWalletsIdsGrow(next, docs[1..]);
    }
  }

  /** Inserting wallets that are all stored already changes nothing. */
  lemma {:induction false} WithWalletsPresent(ws: seq<WalletDocument>, docs: seq<WalletDocument>)
    requires forall i :: 0 <= i < |docs| ==> docs[i].id in WalletIds(ws)
    ensures WithWallets(ws, docs) == ws
    decreases |docs|
  {
    if docs != [] {
      assert forall i :: 0 <= i < |docs[1..]| ==> docs[1..][i] == docs[i + 1];
      WithWalletsPresent(ws, docs[1..]);
    }
  }

  /** Storing the same wallets a second time keeps a single copy of each. */
  lemma WithWalletsTwice(ws: seq<WalletDocument>, docs: seq<WalletDocument>)
    requires DistinctWalletIds(ws)
    ensures WithWallets(WithWallets(ws, docs), docs) == WithWallets(ws, docs)
  {
    WithWalletsKeeps(ws, docs);
    WithWalletsPresent(WithWallets(ws, docs), docs);
  }

  /** The two collections of the document store. */
  class MongoDBHandler {
    var trades: seq<TradeDocument>
    var wallets: seq<WalletDocument>

    constructor()
      ensures trades == [] && wallets == []
    {
      trades := [];
      wallets := [];
    }

    /** `insert_trade`: the trade gets a fresh store id, so it is always added. */
    method InsertTrade(doc: TradeDocument)
      modifies this
      ensures trades == old(trades) + [doc] && wallets == old(wallets)
    {
      trades := trades + [doc];
    }

    /** `insert_wallet`: the `find_one` by `_id`, then `insert_one`. */
    method InsertWallet(doc: WalletDocument)
      modifies this
      ensures wallets == WithWallet(old(wallets), doc) && trades == old(trades)
    {
      var i := 0;
      while i < |wallets|
        invariant 0 <= i <= |wallets|
        invariant forall j :: 0 <= j < i ==> wallets[j].id != doc.id
      {
        if wallets[i].id == doc.id {
          assert WalletIds(wallets)[i] == doc.id;
          return;
        }
        i := i + 1;
      }
      assert doc.id !in WalletIds(wallets) by {
        forall j | 0 <= j < |wallets| ensures WalletIds(wallets)[j] != doc.id {
        }
      }
      wallets := wallets + [doc];
    }
  }

  // ----------------------------------------------------------- validation

  /** The check applied to each dict payload: its verdict and the payload as
      the check leaves it, or an exception. */
  type Screen = Dict<Json> -> Result<Checked<Json>>

  /** The validation loop from payload `i` on, for a per-payload check
      `screen`: a payload that is not a dict raises at `data.get`, the
      payload is replaced by what the check leaves, and the first failure
      ends the loop. */
  function ScreenFrom(payloads: seq<Json>, i: nat, screen: Screen): (r: Result<Checked<seq<Json>>>)
    requires i <= |payloads|
    ensures r.Ok? ==> |r.value.value| == |payloads|
    decreases |payloads| - i
  {
    if i == |payloads| then Ok(Checked(Pass, payloads))
    else if !payloads[i].Obj? then Raised
    else
      match screen(payloads[i].fields)
      case Raised => Raised
      case Ok(screened) =>
        var next := payloads[i := screened.value];
        if screened.verdict.Fail? then Ok(Checked(screened.verdict, next)) else ScreenFrom(next, i + 1, screen)
  }

  /** The verdict on one dict payload and the payload as validation leaves
      it: the trade (default `{}`) is checked first, then the wallet
      (default `[]`), whose string amounts are converted in place. */
  function ScreenOne(fields: Dict<Json>, parse: string -> Option<real>): Result<Checked<Json>> {
    match ValidateTradeData(GetOr(fields, "trade", Obj([])))
    case Raised => Raised
    case Ok(Fail(message)) => Ok(Checked(Fail(message), Obj(fields)))
    case Ok(Pass) =>
      var wallet := WalletCheck(GetOr(fields, "wallet", Arr([])), parse);
      Ok(Checked(wallet.verdict, if "wallet" in Keys(fields) then Obj(Put(fields, "wallet", wallet.value)) else Obj(fields)))
  }

  /** The check of `receive_json`, for a given `float()`. */
  function Validator(parse: string -> Option<real>): Screen {
    fields => ScreenOne(fields, parse)
  }

  /** One payload through the validation loop. */
  method ScreenPayload(payload: Json, parse: string -> Option<real>) returns (r: Result<Checked<Json>>)
    ensures payload.Obj? ==> r == ScreenOne(payload.fields, parse)
    ensures !payload.Obj? ==> r == Raised
  {
    if !payload.Obj? {
      return Raised;
    }
    var fields := payload.fields;
    var tradeVerdict :- ValidateTradeData(GetOr(fields, "trade", Obj([])));
    if tradeVerdict.Fail? {
      return Ok(Checked(tradeVerdict, payload));
    }
    var walletVerdict, wallet := ValidateWalletData(GetOr(fields, "wallet", Arr([])), parse);
    var updated := if "wallet" in Keys(fields) then Obj(Put(fields, "wallet", wallet)) else payload;
    return Ok(Checked(walletVerdict, updated));
  }

  /** The validation loop over all payloads. */
  method ScreenPayloads(payloads: seq<Json>, parse: string -> Option<real>) returns (r: Result<Checked<seq<Json>>>)
    ensures r == ScreenFrom(payloads, 0, Validator(parse))
  {
    var current := payloads;
    var i := 0;
    while i < |current|
      invariant 0 <= i <= |current|
      invariant ScreenFrom(current, i, Validator(parse)) == ScreenFrom(payloads, 0, Validator(parse))
    {
      var screened :- ScreenPayload(current[i], parse);
      current := current[i := screened.value];
      if screened.verdict.Fail? {
        return Ok(Checked(screened.verdict, current));
      }
      i := i + 1;
    }
    return Ok(Checked(Pass, current));
  }

  /** A payload the check lets through. */
  predicate PassesScreen(payload: Json, screen: Screen) {
    payload.Obj? && screen(payload.fields).Ok? && screen(payload.fields).value.verdict == Pass
  }

  /** A payload the check stops with `message`. */
  predicate FailsScreen(payload: Json, screen: Screen, message: string) {
    payload.Obj? && screen(payload.fields).Ok? && screen(payload.fields).value.verdict == Fail(message)
  }

  /** The payload as the check leaves it. */
  function Screened(payload: Json, screen: Screen): Json
    requires PassesScreen(payload, screen)
  {
    screen(payload.fields).value.value
  }

  /** A payload passes validation exactly when it is a dict whose trade
      (default `{}`) and wallet (default `[]`) both pass their validators. */
  lemma PassesScreenMeaning(payload: Json, parse: string -> Option<real>)
    ensures PassesScreen(payload, Validator(parse)) <==>
              && payload.Obj?
              && ValidateTradeData(GetOr(payload.fields, "trade", Obj([]))) == Ok(Pass)
              && WalletCheck(GetOr(payload.fields, "wallet", Arr([])), parse).verdict == Pass
  {
    if payload.Obj? {
      ScreenOneVerdict(payload.fields, parse);
    }
  }

  /** The verdict of the check on a dict payload: the trade's, unless the
      trade passes, and then the wallet's. */
  lemma ScreenOneVerdict(fields: Dict<Json>, parse: string -> Option<real>)
    ensures Validator(parse)(fields) == ScreenOne(fields, parse)
    ensures ValidateTradeData(GetOr(fields, "trade", Obj([]))).Raised? ==> ScreenOne(fields, parse).Raised?
    ensures ValidateTradeData(GetOr(fields, "trade", Obj([]))).Ok? ==>
              && ScreenOne(fields, parse).Ok?
              && ScreenOne(fields, parse).value.verdict ==
                   if ValidateTradeData(GetOr(fields, "trade", Obj([]))).value.Fail?
                   then ValidateTradeData(GetOr(fields, "trade", Obj([]))).value
                   else WalletCheck(GetOr(fields, "wallet", Arr([])), parse).verdict
  {
  }

  /** A payload fails validation with a message exactly when its trade
      fails with it, or its trade passes and its wallet fails with it. */
  lemma FailsScreenMeaning(payload: Json, parse: string -> Option<real>, message: string)
    ensures FailsScreen(payload, Validator(parse), message) <==>
              && payload.Obj?
              && (|| ValidateTradeData(GetOr(payload.fields, "trade", Obj([]))) == Ok(Fail(message))
                  || (&& ValidateTradeData(GetOr(payload.fields, "trade", Obj([]))) == Ok(Pass)
                      && WalletCheck(GetOr(payload.fields, "wallet", Arr([])), parse).verdict == Fail(message)))
  {
    if payload.Obj? {
      ScreenOneVerdict(payload.fields, parse);
    }
  }

  /** A payload that passes is replaced by its screened form and the loop
      goes on with the next one. */
  lemma ScreenFromPassStep(items: seq<Json>, i: nat, screen: Screen) returns (next: seq<Json>)
    requires i < |items| && PassesScreen(items[i], screen)
    ensures next == items[i := Screened(items[i], screen)]
    ensures |next| == |items| && next[i + 1..] == items[i + 1..]
    ensures ScreenFrom(items, i, screen) == ScreenFrom(next, i + 1, screen)
  {
    next := items[i := Screened(items[i], screen)];
    assert next[i + 1..] == items[i + 1..];
  }

  /** From payload `i` on, validation passes exactly when every remaining
      payload passes; it never touches the payloads before `i`, and after a
      pass every remaining payload is as validation leaves it. */
  lemma {:induction false} ScreenFromPasses(items: seq<Json>, i: nat, screen: Screen)
    requires i <= |items|
    ensures ScreenFrom(items, i, screen).Ok? ==> ScreenFrom(items, i, screen).value.value[..i] == items[..i]
    ensures (ScreenFrom(items, i, screen).Ok? && ScreenFrom(items, i, screen).value.verdict == Pass) <==>
              forall j :: i <= j < |items| ==> PassesScreen(items[j], screen)
    ensures ScreenFrom(items, i, screen).Ok? && ScreenFrom(items, i, screen).value.verdict == Pass ==>
              forall j :: i <= j < |items| ==> ScreenFrom(items, i, screen).value.value[j] == Screened(items[j], screen)
    decreases |items| - i
  {
    if i < |items| && items[i].Obj? && screen(items[i].fields).Ok? {
      var c := screen(items[i].fields).value;
      var next := items[i := c.value];
      if c.verdict.Pass? {
        ScreenFromPasses(next, i + 1, screen);
        assert forall j :: i < j < |items| ==> next[j] == items[j];
        if ScreenFrom(next, i + 1, screen).Ok? {
          var out := ScreenFrom(items, i, screen).value.value;
          assert out == ScreenFrom(next, i + 1, screen).value.value;
          assert out[..i + 1] == next[..i + 1];
          assert out[..i + 1][..i] == out[..i];
          assert out[i] == out[..i + 1][i] == next[i];
        }
      }
    }
  }

  /** Validation stops at the first payload that fails, with its message:
      every payload before it passes. */
  lemma {:induction false} ScreenFromFails(items: seq<Json>, i: nat, screen: Screen, message: string)
    requires i <= |items| && ScreenFrom(items, i, screen).Ok? && ScreenFrom(items, i, screen).value.verdict == Fail(message)
    ensures exists k :: && i <= k < |items|
                        && (forall j :: i <= j < k ==> PassesScreen(items[j], screen))
                        && FailsScreen(items[k], screen, message)
    decreases |items| - i
  {
    var c := screen(items[i].fields).value;
    if c.verdict.Pass? {
      var next := items[i := c.value];
      ScreenFromFails(next, i + 1, screen, message);
      var k :| && i + 1 <= k < |items|
               && (forall j :: i + 1 <= j < k ==> PassesScreen(next[j], screen))
               && FailsScreen(next[k], screen, message);
      assert forall j :: i < j < |items| ==> next[j] == items[j];
      assert PassesScreen(items[i], screen);
    }
  }

  /** Validation passes up to payload `k` and fails there: the loop ends
      with that payload's message. */
  lemma {:induction false} ScreenFromFirstFailure(items: seq<Json>, i: nat, k: nat, screen: Screen, message: string)
    requires i <= k < |items|
    requires forall j :: i <= j < k ==> PassesScreen(items[j], screen)
    requires FailsScreen(items[k], screen, message)
    ensures ScreenFrom(items, i, screen).Ok? && ScreenFrom(items, i, screen).value.verdict == Fail(message)
    decreases k - i
  {
    if i < k {
      var next := ScreenFromPassStep(items, i, screen);
      assert forall j :: i < j <= k ==> next[j] == items[j];
      ScreenFromFirstFailure(next, i + 1, k, screen, message);
    }
  }

  // ----------------------------------------------------------- processing

  /** How one payload is formatted; `Formatting(now, parse, digest)` is
      `format_trade_document` of a processor created at `now`, passed
      around as a value so that facts about whole lists stay apart from
      the formatting of one payload. */
  type Formatter = Json -> Result<ProcessedPayload>

  function Formatting(now: int, parse: string -> Option<real>, digest: WalletData -> string): Formatter {
    payload => FormattedPayload(payload, now, parse, digest)
  }

  /** `[processor.format_trade_document(trade) for trade in datas]`: one
      document per payload, in order, raising as soon as one payload raises. */
  function ProcessAll(payloads: seq<Json>, format: Formatter): (r: Result<seq<ProcessedPayload>>)
    ensures r.Ok? <==> forall i :: 0 <= i < |payloads| ==> format(payloads[i]).Ok?
    ensures r.Ok? ==> |r.value| == |payloads|
    ensures r.Ok? ==> forall i :: 0 <= i < |payloads| ==> r.value[i] == format(payloads[i]).value
    decreases |payloads|
  {
    if payloads == [] then Ok([])
    else
      match format(payloads[0])
      case Raised => Raised
      case Ok(doc) =>
        match ProcessAll(payloads[1..], format)
        case Raised => Raised
        case Ok(docs) => Ok([doc] + docs)
  }

  /** The loop building that list from payload `i` on, after `done`. */
  function FormatFrom(done: seq<ProcessedPayload>, payloads: seq<Json>, i: nat, format: Formatter)
    : Result<seq<ProcessedPayload>>
    requires i <= |payloads|
    decreases |payloads| - i
  {
    if i == |payloads| then Ok(done)
    else
      match format(payloads[i])
      case Raised => Raised
      case Ok(doc) => FormatFrom(done + [doc], payloads, i + 1, format)
  }

  /** The loop appends the documents of the remaining payloads to `done`,
      and raises exactly when one of them does. */
  lemma {:induction false} FormatFromAll(done: seq<ProcessedPayload>, payloads: seq<Json>, i: nat, format: Formatter)
    requires i <= |payloads|
    ensures ProcessAll(payloads[i..], format).Raised? ==> FormatFrom(done, payloads, i, format).Raised?
    ensures ProcessAll(payloads[i..], format).Ok? ==>
              FormatFrom(done, payloads, i, format) == Ok(done + ProcessAll(payloads[i..], format).value)
    decreases |payloads| - i
  {
    if i == |payloads| {
      assert payloads[i..] == [];
      assert done + [] == done;
    } else {
      assert payloads[i..][0] == payloads[i] && payloads[i..][1..] == payloads[i + 1..];
      if format(payloads[i]).Ok? {
        var doc := format(payloads[i]).value;
        FormatFromAll(done + [doc], payloads, i + 1, format);
        if ProcessAll(payloads[i + 1..], format).Ok? {
          var rest := ProcessAll(payloads[i + 1..], format).value;
          assert ProcessAll(payloads[i..], format) == Ok([doc] + rest);
          assert (done + [doc]) + rest == done + ([doc] + rest);
        }
      }
    }
  }

  /** The processing loop of `receive_json`. */
  method ProcessPayloads(processor: TradeDataProcessor, payloads: seq<Json>, parse: string -> Option<real>,
                         digest: WalletData -> string) returns (r: Result<seq<ProcessedPayload>>)
    modifies processor
    ensures r == ProcessAll(payloads, Formatting(processor.timestamp, parse, digest))
  {
    var format := Formatting(processor.timestamp, parse, digest);
    var done: seq<ProcessedPayload> := [];
    var i := 0;
    FormatFromAll([], payloads, 0, format);
    assert payloads[0..] == payloads;
    if ProcessAll(payloads, format).Ok? {
      assert [] + ProcessAll(payloads, format).value == ProcessAll(payloads, format).value;
    }
    while i < |payloads|
      invariant 0 <= i <= |payloads|
      invariant FormatFrom(done, payloads, i, format) == ProcessAll(payloads, format)
    {
      var doc :- processor.FormatTradeDocument(payloads[i], parse, digest);
      done := done + [doc];
      i := i + 1;
    }
    return Ok(done);
  }

  // -------------------------------------------------------------- request

  /** The answers of the endpoint: 401, the "Missing data" body, 400 with
      the validator's message, `{'error': None}`, and 500 for an exception. */
  datatype Response = Unauthorized | MissingData | BadRequest(error: string) | Accepted | ServerError

  /** The answer and the documents stored by one request. */
  datatype Reply = Reply(response: Response, stored: seq<ProcessedPayload>)

  /** `receive_json` for API key `apiKey`, Authorization header `header`,
      decoded body `body` (`Null` when there is none) and clock `now`. */
  function Receive(apiKey: Option<string>, header: Option<string>, body: Json, now: int,
                   parse: string -> Option<real>, digest: WalletData -> string): Reply
  {
    if !AuthorizationValidator(apiKey).Validate(header) then Reply(Unauthorized, [])
    else if !Truthy(body) then Reply(MissingData, [])
    else
      match Elements(body)
      case Raised => Reply(ServerError, [])
      case Ok(payloads) =>
        match ScreenFrom(payloads, 0, Validator(parse))
        case Raised => Reply(ServerError, [])
        case Ok(Checked(Fail(message), _)) => Reply(BadRequest(message), [])
        case Ok(Checked(Pass, screened)) =>
          match ProcessAll(screened, Formatting(now, parse, digest))
          case Raised => Reply(ServerError, [])
          case Ok(docs) => Reply(Accepted, docs)
  }

  /** The trade documents, in order. */
  function TradesOf(docs: seq<ProcessedPayload>): (r: seq<TradeDocument>)
    ensures |r| == |docs| && forall i :: 0 <= i < |docs| ==> r[i] == docs[i].trade
  {
    if docs == [] then [] else TradesOf(docs[..|docs| - 1]) + [docs[|docs| - 1].trade]
  }

  /** The wallet documents, in order. */
  function WalletsOf(docs: seq<ProcessedPayload>): (r: seq<WalletDocument>)
    ensures |r| == |docs| && forall i :: 0 <= i < |docs| ==> r[i] == docs[i].wallet
  {
    if docs == [] then [] else WalletsOf(docs[..|docs| - 1]) + [docs[|docs| - 1].wallet]
  }

  /** The storing loop: each trade, then its wallet. */
  method StoreAll(store: MongoDBHandler, docs: seq<ProcessedPayload>)
    modifies store
    ensures store.trades == old(store.trades) + TradesOf(docs)
    ensures store.wallets == WithWallets(old(store.wallets), WalletsOf(docs))
  {
    var i := 0;
    assert docs[..0] == [];
    while i < |docs|
      invariant 0 <= i <= |docs|
      invariant store.trades == old(store.trades) + TradesOf(docs[..i])
      invariant store.wallets == WithWallets(old(store.wallets), WalletsOf(docs[..i]))
    {
      assert docs[..i + 1][..i] == docs[..i] && docs[..i + 1][i] == docs[i];
      assert TradesOf(docs[..i + 1]) == TradesOf(docs[..i]) + [docs[i].trade];
      assert WalletsOf(docs[..i + 1]) == WalletsOf(docs[..i]) + [docs[i].wallet];
      WithWalletsSnoc(old(store.wallets), WalletsOf(docs[..i]), docs[i].wallet);
      store.InsertTrade(docs[i].trade);
      store.InsertWallet(docs[i].wallet);
      i := i + 1;
    }
    assert docs[..i] == docs;
  }

  /** `receive_json`: authorisation, the "Missing data" check, the
      validation loop, the processing, and only then the storing. */
  method ReceiveJson(store: MongoDBHandler, apiKey: Option<string>, header: Option<string>, body: Json, now: int,
                     parse: string -> Option<real>, digest: WalletData -> string) returns (response: Response)
    modifies store
    ensures response == Receive(apiKey, header, body, now, parse, digest).response
    ensures store.trades == old(store.trades) + TradesOf(Receive(apiKey, header, body, now, parse, digest).stored)
    ensures store.wallets == WithWallets(old(store.wallets), WalletsOf(Receive(apiKey, header, body, now, parse, digest).stored))
  {
    var validator := AuthorizationValidator(apiKey);
    if !validator.Validate(header) {
      return Unauthorized;
    }
    if !Truthy(body) {
      return MissingData;
    }
    var payloads := Elements(body);
    if payloads.Raised? {
      return ServerError;
    }
    var screened := ScreenPayloads(payloads.value, parse);
    if screened.Raised? {
      return ServerError;
    }
    if screened.value.verdict.Fail? {
      return BadRequest(screened.value.verdict.message);
    }
    var processor := new TradeDataProcessor(now);
    var processed := ProcessPayloads(processor, screened.value.value, parse, digest);
    if processed.Raised? {
      return ServerError;
    }
    StoreAll(store, processed.value);
    return Accepted;
  }

  // ---------------------------------------------------------- properties

  /** Only the exact bearer header is let in; anything else is answered 401
      and stores nothing. */
  lemma UnauthorizedStoresNothing(apiKey: Option<string>, header: Option<string>, body: Json, now: int,
                                  parse: string -> Option<real>, digest: WalletData -> string)
    ensures Receive(apiKey, header, body, now, parse, digest).response == Unauthorized <==>
            header != Some(ExpectedHeader(apiKey))
    ensures Receive(apiKey, header, body, now, parse, digest).response != Accepted ==>
            Receive(apiKey, header, body, now, parse, digest).stored == []
  {
  }

  /** A missing or empty body is answered "Missing data", once authorised. */
  lemma EmptyBodyIsMissingData(apiKey: Option<string>, body: Json, now: int,
                               parse: string -> Option<real>, digest: WalletData -> string)
    requires !Truthy(body)
    ensures Receive(apiKey, Some(ExpectedHeader(apiKey)), body, now, parse, digest) == Reply(MissingData, [])
  {
  }

  /** An authorised list of payloads in which payload `k` is the first to
      fail validation is answered 400 with that payload's message, and
      nothing is stored, whatever the payloads after it hold. */
  lemma FirstInvalidPayloadRejects(apiKey: Option<string>, payloads: seq<Json>, k: nat, now: int,
                                   parse: string -> Option<real>, digest: WalletData -> string, message: string)
    requires k < |payloads|
    requires forall j :: 0 <= j < k ==> PassesScreen(payloads[j], Validator(parse))
    requires FailsScreen(payloads[k], Validator(parse), message)
    ensures Receive(apiKey, Some(ExpectedHeader(apiKey)), Arr(payloads), now, parse, digest) == Reply(BadRequest(message), [])
  {
    ScreenFromFirstFailure(payloads, 0, k, Validator(parse), message);
    assert Truthy(Arr(payloads));
    var screened := ScreenFrom(payloads, 0, Validator(parse)).value;
    assert screened == Checked(Fail(message), screened.value);
  }

  /** A 400 answer carries the message of the first payload that fails
      validation; every payload before it passes. */
  lemma BadRequestNamesFirstFailure(apiKey: Option<string>, header: Option<string>, payloads: seq<Json>, now: int,
                                    parse: string -> Option<real>, digest: WalletData -> string, message: string)
    requires Receive(apiKey, header, Arr(payloads), now, parse, digest).response == BadRequest(message)
    ensures exists k :: && 0 <= k < |payloads|
                        && (forall j :: 0 <= j < k ==> PassesScreen(payloads[j], Validator(parse)))
                        && FailsScreen(payloads[k], Validator(parse), message)
  {
    ScreenFromFails(payloads, 0, Validator(parse), message);
  }

  /** A request is accepted exactly when it is authorised, its body is a
      non-empty list, every payload passes validation and every validated
      payload can be formatted; it then stores one trade and one wallet per
      payload, from the payload as validation left it. */
  lemma AcceptedMeaning(apiKey: Option<string>, header: Option<string>, payloads: seq<Json>, now: int,
                        parse: string -> Option<real>, digest: WalletData -> string)
    ensures Receive(apiKey, header, Arr(payloads), now, parse, digest).response == Accepted <==>
              && header == Some(ExpectedHeader(apiKey))
              && payloads != []
              && (forall i :: 0 <= i < |payloads| ==> PassesScreen(payloads[i], Validator(parse)))
              && (forall i :: 0 <= i < |payloads| ==> FormattedPayload(Screened(payloads[i], Validator(parse)), now, parse, digest).Ok?)
    ensures Receive(apiKey, header, Arr(payloads), now, parse, digest).response == Accepted ==>
              var stored := Receive(apiKey, header, Arr(payloads), now, parse, digest).stored;
              && |stored| == |payloads|
              && forall i :: 0 <= i < |payloads| ==>
                   stored[i] == FormattedPayload(Screened(payloads[i], Validator(parse)), now, parse, digest).value
  {
    ScreenFromPasses(payloads, 0, Validator(parse));
    var reply := Receive(apiKey, header, Arr(payloads), now, parse, digest);
    if header == Some(ExpectedHeader(apiKey)) && payloads != [] {
      assert Truthy(Arr(payloads));
      var r := ScreenFrom(payloads, 0, Validator(parse));
      if r.Ok? && r.value.verdict == Pass {
        var screened := r.value.value;
        assert r == Ok(Checked(Pass, screened));
        assert reply == match ProcessAll(screened, Formatting(now, parse, digest))
                        case Raised => Reply(ServerError, [])
                        case Ok(docs) => Reply(Accepted, docs);
      } else {
        assert reply.response != Accepted;
      }
    }
  }

  /** A payload whose trade passes and which has no "wallet" passes
      validation (the wallet defaults to `[]`) but cannot be formatted, so
      the request fails with 500 and stores nothing. */
  lemma MissingWalletIsServerError(apiKey: Option<string>, payload: Json, now: int,
                                   parse: string -> Option<real>, digest: WalletData -> string)
    requires payload.Obj? && "wallet" !in Keys(payload.fields)
    requires ValidateTradeData(GetOr(payload.fields, "trade", Obj([]))) == Ok(Pass)
    ensures PassesScreen(payload, Validator(parse))
    ensures Receive(apiKey, Some(ExpectedHeader(apiKey)), Arr([payload]), now, parse, digest) == Reply(ServerError, [])
  {
    var screen := Validator(parse);
    assert GetOr(payload.fields, "wallet", Arr([])) == Arr([]);
    ScreenOneVerdict(payload.fields, parse);
    assert screen(payload.fields) == Ok(Checked(Pass, payload));
    var next := ScreenFromPassStep([payload], 0, screen);
    assert next == [payload];
    assert ScreenFrom([payload], 0, screen) == Ok(Checked(Pass, [payload]));
    MissingWalletRaises(payload, now, parse, digest);
    assert ProcessAll([payload], Formatting(now, parse, digest)).Raised?;
    assert Truthy(Arr([payload])) && Elements(Arr([payload])) == Ok([payload]);
  }

  /** Sending an accepted request again later is accepted too and stores
      its trades again, but no wallet: the wallet ids do not depend on the
      time. */
  lemma ResendStoresNoNewWallet(apiKey: Option<string>, header: Option<string>, body: Json, t1: int, t2: int,
                                parse: string -> Option<real>, digest: WalletData -> string, ws: seq<WalletDocument>)
    requires DistinctWalletIds(ws)
    requires Receive(apiKey, header, body, t1, parse, digest).response == Accepted
    ensures Receive(apiKey, header, body, t2, parse, digest).response == Accepted
    ensures var after := WithWallets(ws, WalletsOf(Receive(apiKey, header, body, t1, parse, digest).stored));
            WithWallets(after, WalletsOf(Receive(apiKey, header, body, t2, parse, digest).stored)) == after
  {
    var payloads := Elements(body).value;
    var screened := ScreenFrom(payloads, 0, Validator(parse)).value.value;
    forall i | 0 <= i < |screened| ensures FormattedPayload(screened[i], t2, parse, digest).Ok? {
      FormattedPayloadTimes(screened[i], t1, t2, parse, digest);
    }
    var first := WalletsOf(Receive(apiKey, header, body, t1, parse, digest).stored);
    var second := WalletsOf(Receive(apiKey, header, body, t2, parse, digest).stored);
    WithWalletsKeeps(ws, first);
    forall i | 0 <= i < |second| ensures second[i].id in WalletIds(WithWallets(ws, first)) {
      FormattedPayloadTimes(screened[i], t1, t2, parse, digest);
      assert second[i].id == first[i].id;
    }
    WithWalletsPresent(WithWallets(ws, first), second);
  }
}
