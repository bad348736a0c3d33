/** The accumulator service (Server): an in-memory list of JSON records that
    authorised POSTs extend and authorised GETs return whole. */
module Server {
  import opened Wrappers
  import opened Json
  import opened Auth

  /** The body of a POST reply: `{'message': None}` once stored,
      `{'error': 'Missing data'}` for an empty or absent body, and
      `{'error': 'Unauthorized'}` with status 401. */
  datatype PostReply = Stored | MissingData | Unauthorized

  /** `auth_token != f'Bearer {expected_token}'` is the refusal test of both
      routes. */
  predicate Authorized(apiKey: Option<string>, header: Option<string>) {
    AuthorizationValidator(apiKey).Validate(header)
  }

  /** The records a POST adds: the elements of a non-empty list in order, any
      other truthy value as one record, and nothing otherwise. */
  function Received(apiKey: Option<string>, header: Option<string>, body: Json): seq<Json> {
    if !Authorized(apiKey, header) || !Truthy(body) then []
    else if body.Arr? then body.items
    else [body]
  }

  /** The reply of a POST. */
  function PostReplyOf(apiKey: Option<string>, header: Option<string>, body: Json): PostReply {
    if !Authorized(apiKey, header) then Unauthorized
    else if Truthy(body) then Stored
    else MissingData
  }

  /** The module-level `json_data` list. */
  class Accumulator {
    var jsonData: seq<Json>

    constructor()
      ensures jsonData == []
    {
      jsonData := [];
    }

    /** `receive_json`: the POST route. */
    method ReceiveJson(apiKey: Option<string>, header: Option<string>, body: Json) returns (reply: PostReply)
      modifies this
      ensures reply == PostReplyOf(apiKey, header, body)
      ensures jsonData == old(jsonData) + Received(apiKey, header, body)
    {
      if !Authorized(apiKey, header) {
        return Unauthorized;
      }
      if !Truthy(body) {
        return MissingData;
      }
      if body.Arr? {
        var i := 0;
        while i < |body.items|
          invariant 0 <= i <= |body.items|
          invariant jsonData == old(jsonData) + body.items[..i]
        {
          jsonData := jsonData + [body.items[i]];
          i := i + 1;
        }
        assert body.items[..i] == body.items;
      } else {
        jsonData := jsonData + [body];
      }
      return Stored;
    }

    /** `get_all_json`: the GET route returns every record, or nothing with
        status 401, and changes nothing. */
    method GetAllJson(apiKey: Option<string>, header: Option<string>) returns (r: Option<seq<Json>>)
      ensures Authorized(apiKey, header) ==> r == Some(jsonData)
      ensures !Authorized(apiKey, header) ==> r.None?
    {
      if !Authorized(apiKey, header) {
        return None;
      }
      return Some(jsonData);
    }
  }

  /** A POST stores something exactly when it is authorised and its body is
      truthy; a list stores one record per element, anything else a single
      record. */
  lemma ReceivedMeaning(apiKey: Option<string>, header: Option<string>, body: Json)
    ensures Received(apiKey, header, body) != [] <==> PostReplyOf(apiKey, header, body) == Stored
    ensures PostReplyOf(apiKey, header, body) == Stored && body.Arr? ==>
              |Received(apiKey, header, body)| == |body.items|
    ensures PostReplyOf(apiKey, header, body) == Stored && !body.Arr? ==>
              |Received(apiKey, header, body)| == 1
  {
  }

  /** Every stored record comes from the body: the body itself or one of
      the elements of a list body. */
  lemma ReceivedOrigin(apiKey: Option<string>, header: Option<string>, body: Json, x: Json)
    requires x in Received(apiKey, header, body)
    ensures x == body || (body.Arr? && x in body.items)
  {
  }

  /** The answer of the GET route as the client decodes it:
      `{'json_data': [...]}`, or `{'error': 'Unauthorized'}`. */
  function GetAnswer(apiKey: Option<string>, header: Option<string>, records: seq<Json>): Json {
    if Authorized(apiKey, header) then Obj([("json_data", Arr(records))])
    else Obj([("error", Str("Unauthorized"))])
  }
}
