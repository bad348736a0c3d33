/** The client polling the accumulator: the client's GET is answered by the
    accumulator's GET route, which checks the client's Authorization header
    against the accumulator's API_KEY. */
module Deployment {
  import opened Wrappers
  import opened Json
  import Client
  import Server

  /** The accumulator holding `records` under key `apiKey`, as the client's
      `fetch` sees it. */
  function ServerFetch(apiKey: Option<string>, records: seq<Json>): string -> Json {
    h => Server.GetAnswer(apiKey, Some(h), records)
  }

  /** As written, the client's header is accepted only when the
      accumulator's key is the literal text "{token}": a client configured
      with the accumulator's real key is refused. */
  lemma AsWrittenHeaderRefused(token: string, records: seq<Json>)
    ensures Server.Authorized(Some(token), Some(Client.AuthHeaderAsWritten(token))) <==> token == "{token}"
    ensures token != "{token}" ==>
              ServerFetch(Some(token), records)(Client.AuthHeaderAsWritten(token)) == Client.UnauthorizedAnswer
  {
    var h := Client.AuthHeaderAsWritten(token);
    assert "Bearer " + "{token}" == h;
    if Server.Authorized(Some(token), Some(h)) {
      assert h == "Bearer " + token;
      assert token == h[7..];
    }
  }

  /** As written, a client configured with the accumulator's real key (any
      key but the literal text "{token}") is refused on every cycle: it exits
      without exporting anything and without saving the buffer file. */
  lemma AsWrittenCycleRefused(url: string, token: string, records: seq<Json>, file: Option<Json>)
    requires token != "{token}"
    ensures Client.CycleOf(Client.AuthHeaderAsWritten, Some(url), Some(token), ServerFetch(Some(token), records), file) ==
              Client.Cycle(Client.Refused, None, [], [])
  {
    AsWrittenHeaderRefused(token, records);
  }

  /** With the header "Bearer " followed by the token, a client sharing the
      accumulator's key is served: the cycle is not refused and the record
      it appends is `{"json_data": records}`. */
  lemma CorrectedHeaderServed(url: string, token: string, records: seq<Json>, file: Option<Json>)
    ensures Server.Authorized(Some(token), Some(Client.AuthHeader(token)))
    ensures Client.CycleOf(Client.AuthHeader, Some(url), Some(token), ServerFetch(Some(token), records), file).outcome != Client.Refused
    ensures file.None? ==>
              Client.CycleOf(Client.AuthHeader, Some(url), Some(token), ServerFetch(Some(token), records), file).saved ==
                [Obj([("json_data", Arr(records))])]
  {
    var answer := ServerFetch(Some(token), records)(Client.AuthHeader(token));
    assert answer == Obj([("json_data", Arr(records))]);
    assert answer.fields[0].0 != Client.UnauthorizedAnswer.fields[0].0;
  }

  /** A client holding a different key is refused, and its cycle changes
      nothing. */
  lemma WrongKeyRefused(url: string, token: string, key: string, records: seq<Json>, file: Option<Json>)
    requires token != key
    ensures Client.CycleOf(Client.AuthHeader, Some(url), Some(token), ServerFetch(Some(key), records), file) ==
              Client.Cycle(Client.Refused, None, [], [])
  {
  }
}
